// What every run of the browser controller keeps to
// (packages/core/src/agent-runtime/browser-controller.ts).
module BrowserSafety {
  import opened BrowserController
  import opened BrowserRequests
  import opened BrowserDeliveries

  lemma {:induction false} RunKeeps(config: Config, up: bool, actions: seq<Action>)
    ensures Inv(config, Run(config, up, actions))
  {
    if actions == [] {
      ChangedKeeps(config, BLANK, up);
    } else {
      RunKeeps(config, up, actions[..|actions| - 1]);
      NextKeeps(config, Run(config, up, actions[..|actions| - 1]), actions[|actions| - 1]);
    }
  }

  /** The bounds hold in every state, and the byte counter is the sum of what is buffered. */
  lemma BufferIsBounded(config: Config, up: bool, actions: seq<Action>)
    ensures var s := Run(config, up, actions);
            |s.buffered| <= config.maxEvents && s.bufferedBytes == Bytes(s.buffered) <= config.maxBytes
            && |s.pending| <= config.maxPending
  {
    RunKeeps(config, up, actions);
  }

  /** While the controller is open, `busy` marks exactly that a request of the current generation
      executes, and there is never more than one. */
  lemma BusyIsExact(config: Config, up: bool, actions: seq<Action>)
    ensures var s := Run(config, up, actions);
            && (!s.closed ==> (s.busy <==> exists id: nat :: ExecutingNow(s, id)))
            && (forall a: nat, b: nat | ExecutingNow(s, a) && ExecutingNow(s, b) :: a == b)
  {
    RunKeeps(config, up, actions);
    var s := Run(config, up, actions);
    forall a: nat, b: nat | ExecutingNow(s, a) && ExecutingNow(s, b) ensures a == b {
      OneExecutes(s, a, b);
    }
  }

  /** The view never holds anything that came over an earlier connection. */
  lemma ViewIsFenced(config: Config, up: bool, actions: seq<Action>)
    ensures var s := Run(config, up, actions);
            forall entry | entry in s.client.view :: entry.Connection() == s.connection
  {
    RunKeeps(config, up, actions);
  }

  /** Nothing differs but request `id`, what is pending and whether a refresh is scheduled. */
  ghost predicate Indistinct(s: State, t: State, id: nat) {
    && id < |s.requests| == |t.requests|
    && t == s.(requests := s.requests[id := t.requests[id]], pending := t.pending, refreshScheduled := t.refreshScheduled)
  }

  /** With these requests pending the controller would schedule a refresh of its own. */
  predicate RefreshDue(config: Config, s: State, pending: set<nat>) {
    !s.busy && |pending| < config.maxPending && s.client.status == Ready && config.resyncRequired(s.client.view)
  }

  lemma StaleStart(s: State, id: nat)
    requires id < |s.requests| && s.requests[id].epoch != s.generation && Startable(s, id)
    ensures DoStart(s, id) == SetRequest(s, id, Ended(s.requests[id]))
  {
  }

  lemma StaleSettle(config: Config, s: State, id: nat, outcome: Outcome)
    requires id < |s.requests| && s.requests[id].epoch != s.generation && Executes(s, id)
    ensures DoSettle(config, s, id, outcome) == SetRequest(s, id, Ended(s.requests[id]))
  {
  }

  lemma StaleCleanUp(config: Config, s: State, id: nat)
    requires id < |s.requests|
    ensures var t := DoCleanUp(config, s, id);
            && Indistinct(s, t, id) && t.pending == s.pending - {id}
            && (t.refreshScheduled <==> s.refreshScheduled || RefreshDue(config, s, t.pending))
  {
  }

  /** Starting, settling or cleaning up a request of an earlier generation changes that request alone.
      Its clean-up takes it off what is pending and, like any other, schedules a refresh that is due. */
  lemma StaleRequestsAreInert(config: Config, s: State, id: nat, action: Action)
    requires action == Start(id) || action == CleanUp(id) || (action.Settle? && action.id == id)
    requires id < |s.requests| && s.requests[id].epoch != s.generation
    ensures var t, cleaned := Next(config, s, action), action.CleanUp? && s.requests[id].race == Decided;
            && Indistinct(s, t, id)
            && t.pending == (if cleaned then s.pending - {id} else s.pending)
            && (t.refreshScheduled <==> s.refreshScheduled || (cleaned && RefreshDue(config, s, t.pending)))
  {
    match action
    case Start(_) => if Startable(s, id) { StaleStart(s, id); }
    case Settle(_, outcome) => if Executes(s, id) { StaleSettle(config, s, id, outcome); }
    case CleanUp(_) => if s.requests[id].race == Decided { StaleCleanUp(config, s, id); }
  }

  /** In a run an open controller is not waiting for a stale request any more, and a closed one
      schedules nothing. */
  lemma StaleCleanUpsAreInert(config: Config, up: bool, actions: seq<Action>, id: nat)
    requires !Live(Run(config, up, actions), id) && id < |Run(config, up, actions).requests|
    ensures var s := Run(config, up, actions); var t := Next(config, s, CleanUp(id));
            && t.client == s.client
            && (!s.closed ==> t.pending == s.pending)
            && (s.closed ==> t.refreshScheduled == s.refreshScheduled)
  {
    RunKeeps(config, up, actions);
    StaleRequestsAreInert(config, Run(config, up, actions), id, CleanUp(id));
  }

  /** `arrived`, and what the step brings in for request `id` if it is executing. */
  ghost function WithArrival(config: Config, s: State, action: Action, id: nat, arrived: seq<Arrival>): seq<Arrival> {
    if action.Receive? && action.delivery.conversationId == config.conversationId && ExecutingNow(s, id)
    then arrived + [Arrival(action.delivery, s.connection)]
    else arrived
  }

  /** What arrives for the conversation while request `id` executes as one of the current generation. */
  ghost function ArrivedDuring(config: Config, up: bool, actions: seq<Action>, id: nat): seq<Arrival> {
    if actions == [] then [] else
      var earlier := actions[..|actions| - 1];
      WithArrival(config, Run(config, up, earlier), actions[|actions| - 1], id, ArrivedDuring(config, up, earlier, id))
  }

  ghost predicate TooMuch(config: Config, arrivals: seq<Arrival>) {
    |arrivals| > config.maxEvents || Bytes(arrivals) > config.maxBytes
  }

  /** The buffer of an executing request is all that arrived, or nothing when that was too much. */
  ghost predicate Collects(config: Config, s: State, id: nat, arrived: seq<Arrival>) {
    && (id >= |s.requests| || s.requests[id].stage == Waiting ==> arrived == [])
    && (ExecutingNow(s, id) ==>
          (s.overflowed <==> TooMuch(config, arrived)) && s.buffered == if s.overflowed then [] else arrived)
  }

  lemma ReceiveCollects(config: Config, s: State, delivery: Delivery, id: nat, arrived: seq<Arrival>)
    requires Inv(config, s) && ExecutingNow(s, id) && Collects(config, s, id, arrived)
    requires delivery.conversationId == config.conversationId
    ensures Collects(config, DoReceive(config, s, delivery), id, arrived + [Arrival(delivery, s.connection)])
  {
    BytesOfLonger(arrived, Arrival(delivery, s.connection));
  }

  /** Steps that neither start a request of the generation nor touch the buffer. */
  lemma OtherCollects(config: Config, s: State, t: State, id: nat, arrived: seq<Arrival>)
    requires Collects(config, s, id, arrived)
    requires t.buffered == s.buffered && t.overflowed == s.overflowed
    requires |t.requests| >= |s.requests|
    requires ExecutingNow(t, id) ==> ExecutingNow(s, id)
    requires id < |s.requests| && t.requests[id].stage == Waiting ==> s.requests[id].stage == Waiting
    ensures Collects(config, t, id, arrived)
  {
  }

  lemma StartCollects(config: Config, s: State, started: nat, id: nat, arrived: seq<Arrival>)
    requires Inv(config, s) && Collects(config, s, id, arrived) && Startable(s, started)
    ensures Collects(config, DoStart(s, started), id, arrived)
  {
    if Live(s, started) {
      StartFindsIdle(config, s, started);
    }
  }

  lemma SettleCollects(config: Config, s: State, settled: nat, outcome: Outcome, id: nat, arrived: seq<Arrival>)
    requires Inv(config, s) && Collects(config, s, id, arrived) && Executes(s, settled)
    ensures Collects(config, DoSettle(config, s, settled, outcome), id, arrived)
  {
    var t := DoSettle(config, s, settled, outcome);
    assert forall k | 0 <= k < |s.requests| && k != settled :: t.requests[k] == s.requests[k];
    if Live(s, settled) && ExecutingNow(s, id) {
      OneExecutes(s, settled, id);
    } else if !Live(s, settled) {
      OtherCollects(config, s, t, id, arrived);
    }
  }

  lemma ConnectionCollects(config: Config, s: State, up: bool, id: nat, arrived: seq<Arrival>)
    requires Inv(config, s) && Collects(config, s, id, arrived)
    ensures Collects(config, DoConnection(config, s, up), id, arrived)
  {
    var t := DoConnection(config, s, up);
    if !s.closed {
      assert forall k | 0 <= k < |s.requests| :: t.requests[k].stage == s.requests[k].stage;
      assert !ExecutingNow(t, id);
    }
  }

  lemma ArrivalCollects(config: Config, s: State, delivery: Delivery, id: nat, arrived: seq<Arrival>)
    requires Inv(config, s) && Collects(config, s, id, arrived)
    ensures Collects(config, DoReceive(config, s, delivery), id, WithArrival(config, s, Receive(delivery), id, arrived))
  {
    if delivery.conversationId == config.conversationId && ExecutingNow(s, id) {
      ReceiveCollects(config, s, delivery, id, arrived);
    } else {
      OtherReceiveCollects(config, s, delivery, id, arrived);
    }
  }

  lemma StepCollects(config: Config, s: State, action: Action, id: nat, arrived: seq<Arrival>)
    requires Inv(config, s) && Collects(config, s, id, arrived)
    ensures Collects(config, Next(config, s, action), id, WithArrival(config, s, action, id, arrived))
  {
    match action
    case Start(started) => if Startable(s, started) { StartCollects(config, s, started, id, arrived); }
    case Settle(settled, outcome) =>
      if Executes(s, settled) { SettleCollects(config, s, settled, outcome, id, arrived); }
    case Receive(delivery) => ArrivalCollects(config, s, delivery, id, arrived);
    case Connection(up) => ConnectionCollects(config, s, up, id, arrived);
    case Command(operation) => CommandCollects(config, s, operation, id, arrived);
    case Refresh => RefreshCollects(config, s, id, arrived);
    case CleanUp(cleaned) => if cleaned < |s.requests| { CleanUpCollects(config, s, cleaned, id, arrived); }
    case Close => CloseCollects(config, s, id, arrived);
  }

  lemma CloseCollects(config: Config, s: State, id: nat, arrived: seq<Arrival>)
    requires Inv(config, s) && Collects(config, s, id, arrived)
    ensures Collects(config, DoClose(s), id, arrived)
  {
    OtherCollects(config, s, DoClose(s), id, arrived);
  }

  lemma CommandCollects(config: Config, s: State, operation: Operation, id: nat, arrived: seq<Arrival>)
    requires Collects(config, s, id, arrived)
    ensures Collects(config, DoCommand(config, s, operation), id, arrived)
  {
    OtherCollects(config, s, DoCommand(config, s, operation), id, arrived);
  }

  lemma RefreshCollects(config: Config, s: State, id: nat, arrived: seq<Arrival>)
    requires Collects(config, s, id, arrived)
    ensures Collects(config, DoRefresh(config, s), id, arrived)
  {
    OtherCollects(config, s, DoRefresh(config, s), id, arrived);
  }

  lemma CleanUpCollects(config: Config, s: State, cleaned: nat, id: nat, arrived: seq<Arrival>)
    requires Collects(config, s, id, arrived) && cleaned < |s.requests|
    ensures Collects(config, DoCleanUp(config, s, cleaned), id, arrived)
  {
    OtherCollects(config, s, DoCleanUp(config, s, cleaned), id, arrived);
  }

  lemma OtherReceiveCollects(config: Config, s: State, delivery: Delivery, id: nat, arrived: seq<Arrival>)
    requires Inv(config, s) && Collects(config, s, id, arrived)
    requires delivery.conversationId != config.conversationId || !ExecutingNow(s, id)
    ensures Collects(config, DoReceive(config, s, delivery), id, arrived)
  {
  }

  lemma {:induction false} RunCollects(config: Config, up: bool, actions: seq<Action>, id: nat)
    ensures Collects(config, Run(config, up, actions), id, ArrivedDuring(config, up, actions, id))
  {
    if actions == [] {
      var s := Run(config, up, actions);
      assert |s.requests| <= 1 && (|s.requests| == 1 ==> s.requests[0].stage == Waiting);
    } else {
      var earlier, action := actions[..|actions| - 1], actions[|actions| - 1];
      RunKeeps(config, up, earlier);
      RunCollects(config, up, earlier, id);
      StepCollects(config, Run(config, up, earlier), action, id, ArrivedDuring(config, up, earlier, id));
    }
  }

  /** Delivery isolation: what arrives during a request of the live generation is applied at its
      settlement, after the reply, all of it once and in order; or, exactly when it exceeds a
      bound, none of it is, and the controller reports the overflow. */
  lemma DeliveriesAreIsolated(config: Config, up: bool, actions: seq<Action>, id: nat, outcome: Outcome)
    requires ExecutingNow(Run(config, up, actions), id)
    ensures var s := Run(config, up, actions);
            var arrived := ArrivedDuring(config, up, actions, id);
            var replied := Replied(config, s.client, s.requests[id], outcome);
            var client := Next(config, s, Settle(id, outcome)).client;
            if TooMuch(config, arrived) then client == Fail(replied, EventOverflow)
            else client == ApplyAll(replied, arrived) && client.view == replied.view + EventsOf(arrived)
  {
    RunCollects(config, up, actions, id);
    var s := Run(config, up, actions);
    ApplyAllAppends(Replied(config, s.client, s.requests[id], outcome), s.buffered);
  }

  lemma BusyReceiveWaits(config: Config, s: State, delivery: Delivery)
    requires BusyInv(s) && exists id: nat :: ExecutingNow(s, id)
    ensures DoReceive(config, s, delivery).client == s.client
  {
    assert s.closed || s.busy;
  }

  /** While a request executes, deliveries leave the view alone. */
  lemma BusyViewWaits(config: Config, up: bool, actions: seq<Action>, delivery: Delivery)
    requires exists id: nat :: ExecutingNow(Run(config, up, actions), id)
    ensures var s := Run(config, up, actions); Next(config, s, Receive(delivery)).client == s.client
  {
    RunKeeps(config, up, actions);
    BusyReceiveWaits(config, Run(config, up, actions), delivery);
  }

  predicate Resets(config: Config, s: State, action: Action) {
    || (action.Connection? && !s.closed)
    || (action.Settle? && ExecutingNow(s, action.id) && CatchesUp(config, s.client, s.requests[action.id], action.outcome))
  }

  /** `count`, and one more if the step sends a refresh on the controller's own account; 0 at a reset. */
  ghost function Counting(config: Config, s: State, action: Action, count: nat): nat {
    if Resets(config, s, action) then 0
    else if action.Refresh? && |Next(config, s, action).requests| > |s.requests| then count + 1
    else count
  }

  /** Refreshes the controller sent on its own account since the last reset. */
  ghost function Automatic(config: Config, up: bool, actions: seq<Action>): nat {
    if actions == [] then 0 else
      var earlier := actions[..|actions| - 1];
      Counting(config, Run(config, up, earlier), actions[|actions| - 1], Automatic(config, up, earlier))
  }

  lemma StepCounts(config: Config, s: State, action: Action, count: nat)
    requires count <= 3 && count <= s.refreshAttempts
    ensures Counting(config, s, action, count) <= 3
    ensures Counting(config, s, action, count) <= Next(config, s, action).refreshAttempts
  {
  }

  /** At most three go out between resets, whatever happens in between. */
  lemma {:induction false} AutomaticIsBounded(config: Config, up: bool, actions: seq<Action>)
    ensures Automatic(config, up, actions) <= 3
    ensures Automatic(config, up, actions) <= Run(config, up, actions).refreshAttempts
  {
    if actions != [] {
      var earlier := actions[..|actions| - 1];
      AutomaticIsBounded(config, up, earlier);
      StepCounts(config, Run(config, up, earlier), actions[|actions| - 1], Automatic(config, up, earlier));
    }
  }

  lemma RequestsInOrder(config: Config, up: bool, actions: seq<Action>)
    ensures RequestInv(Run(config, up, actions))
    ensures Run(config, up, actions).closed <==> Run(config, up, actions).client.status == Closed
  {
    RunKeeps(config, up, actions);
  }

  lemma RunExtends(config: Config, up: bool, actions: seq<Action>, action: Action)
    ensures Run(config, up, actions + [action]) == Next(config, Run(config, up, actions), action)
  {
    assert (actions + [action])[..|actions|] == actions;
  }

  /** Closing is for good: nothing the application sees changes any more. */
  lemma {:induction false} ClosedForGood(config: Config, up: bool, actions: seq<Action>, more: seq<Action>)
    requires Run(config, up, actions).closed
    ensures Run(config, up, actions + more).closed
    ensures Run(config, up, actions + more).client == Run(config, up, actions).client
    ensures Run(config, up, actions).client.status == Closed
    decreases |more|
  {
    RequestsInOrder(config, up, actions);
    if more == [] {
      assert actions + more == actions;
    } else {
      ClosedStepKeeps(config, Run(config, up, actions), more[0]);
      RunExtends(config, up, actions, more[0]);
      ClosedForGood(config, up, actions + [more[0]], more[1..]);
      assert actions + [more[0]] + more[1..] == actions + more;
    }
  }

  lemma ClosedStepKeeps(config: Config, s: State, action: Action)
    requires RequestInv(s) && s.closed
    ensures Next(config, s, action).closed && Next(config, s, action).client == s.client
  {
    if action.Settle? && Executes(s, action.id) {
      assert s.requests[action.id].epoch <= s.connection < s.generation;
    }
  }
}
