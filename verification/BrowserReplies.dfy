// What an application sees of each step of the browser controller: replies, deliveries, connection
// changes and refreshes (packages/core/src/agent-runtime/browser-controller.ts).
module BrowserReplies {
  import opened Prelude
  import opened BrowserController
  import opened BrowserDeliveries
  import opened BrowserSafety

  // ---- the reply to a request -------------------------------------------------------------------

  /** The code of the last delivery that says something went wrong. */
  function FailureIn(arrivals: seq<Arrival>): Option<Code> {
    if arrivals == [] then None
    else match arrivals[|arrivals| - 1].delivery.kind
      case Event(_) => FailureIn(arrivals[..|arrivals| - 1])
      case AccessDenied => Some(Forbidden)
      case Overflow => Some(EventOverflow)
  }

  lemma {:induction false} ApplyAllFails(client: Client, arrivals: seq<Arrival>)
    ensures var after := ApplyAll(client, arrivals);
            if FailureIn(arrivals).Some? then after.status == Failing && after.error == FailureIn(arrivals)
            else after.status == client.status && after.error == client.error
  {
    if arrivals != [] {
      ApplyAllFails(client, arrivals[..|arrivals| - 1]);
    }
  }

  /** What goes wrong with the deliveries of a request: they were too much, or one of them says so. */
  ghost function Trouble(config: Config, arrived: seq<Arrival>): Option<Code> {
    if TooMuch(config, arrived) then Some(EventOverflow) else FailureIn(arrived)
  }

  ghost predicate Shown(client: Client, view: View, status: Status, error: Option<Code>) {
    client.view == view && client.status == status && client.error == error
  }

  /** From here on `shown` is what the deliveries were applied to: their trouble is shown over its own. */
  ghost predicate ShownWith(config: Config, client: Client, arrived: seq<Arrival>, view: View, status: Status,
                            error: Option<Code>)
  {
    var trouble := Trouble(config, arrived);
    Shown(client, view + if TooMuch(config, arrived) then [] else EventsOf(arrived),
          if trouble.Some? then Failing else status, if trouble.Some? then trouble else error)
  }

  lemma DrainedShows(config: Config, client: Client, arrived: seq<Arrival>)
    ensures var overflowed := TooMuch(config, arrived);
            ShownWith(config, Drained(client, if overflowed then [] else arrived, overflowed), arrived,
                      client.view, client.status, client.error)
  {
    ApplyAllAppends(client, arrived);
    ApplyAllFails(client, arrived);
  }

  /** What each outcome of a request shows, with what arrived meanwhile. */
  ghost predicate Replies(config: Config, before: Client, operation: Operation, connection: nat, outcome: Outcome,
                          arrived: seq<Arrival>, after: Client)
  {
    match outcome
    case Lost => ShownWith(config, after, arrived, before.view, Failing, Some(RequestFailed))
    case Misaddressed => ShownWith(config, after, arrived, before.view, Failing, Some(RequestFailed))
    case Refused(code) => ShownWith(config, after, arrived, before.view, Failing, Some(Reported(code)))
    case Answered(None) =>
      ShownWith(config, after, arrived, before.view,
                if operation == Detach then Disconnected else before.status, before.error)
    case Answered(Some(snapshot)) =>
      if snapshot.conversationId == config.conversationId then
        ShownWith(config, after, arrived, before.view + [FromSnapshot(snapshot, connection)],
                  if operation == Detach then Disconnected else Ready, None)
      else ShownWith(config, after, arrived, before.view, Failing, Some(RequestFailed))
  }

  /** A snapshot of the conversation reaches the view, and all that arrived during the request behind it; a
      refused, lost or foreign reply is reported over the view as it was. */
  lemma ReplyIsShown(config: Config, up: bool, actions: seq<Action>, id: nat, outcome: Outcome)
    requires ExecutingNow(Run(config, up, actions), id)
    ensures var s := Run(config, up, actions);
            Replies(config, s.client, s.requests[id].operation, s.generation, outcome,
                    ArrivedDuring(config, up, actions, id), Next(config, s, Settle(id, outcome)).client)
  {
    var s := Run(config, up, actions);
    RunCollects(config, up, actions, id);
    DrainedShows(config, Replied(config, s.client, s.requests[id], outcome), ArrivedDuring(config, up, actions, id));
  }

  /** The automatic refreshes start over exactly with a snapshot that leaves nothing to catch up. */
  lemma SnapshotResets(config: Config, s: State, id: nat, outcome: Outcome)
    requires ExecutingNow(s, id)
    ensures var t := Next(config, s, Settle(id, outcome));
            if outcome.Answered? && outcome.snapshot.Some? && outcome.snapshot.value.conversationId == config.conversationId
               && !config.resyncRequired(s.client.view + [FromSnapshot(outcome.snapshot.value, s.generation)])
            then t.refreshAttempts == 0 else t.refreshAttempts == s.refreshAttempts
  {
  }

  // ---- the other steps ----------------------------------------------------------------------------

  /** A delivery for the conversation is shown at once while nothing executes. */
  lemma DeliveryIsShown(config: Config, s: State, delivery: Delivery)
    requires !s.closed && !s.busy && delivery.conversationId == config.conversationId
    ensures var client := Next(config, s, Receive(delivery)).client;
            match delivery.kind
            case Event(_) =>
              Shown(client, s.client.view + [FromEvent(Arrival(delivery, s.connection))], s.client.status, s.client.error)
            case AccessDenied => Shown(client, s.client.view, Failing, Some(Forbidden))
            case Overflow => Shown(client, s.client.view, Failing, Some(EventOverflow))
  {
  }

  /** A refresh that is due is scheduled behind a delivery that was shown and behind a clean-up. */
  lemma DueRefreshIsScheduled(config: Config, s: State, action: Action)
    requires match action
             case Receive(delivery) => !s.closed && !s.busy && delivery.conversationId == config.conversationId
             case CleanUp(id) => id < |s.requests| && s.requests[id].race == Decided
             case _ => false
    ensures var t := Next(config, s, action);
            && (t.refreshScheduled <==> s.refreshScheduled || RefreshDue(config, t, t.pending))
            && t.generation == s.generation && t.busy == s.busy && t.refreshAttempts == s.refreshAttempts
            && (action.CleanUp? ==>
                  && t.client == s.client && t.pending == s.pending - {action.id} && |t.requests| == |s.requests|
                  && t.requests[action.id].race == Settled
                  && forall other | 0 <= other < |s.requests| && other != action.id :: t.requests[other] == s.requests[other])
  {
  }

  lemma ForeignDeliveryIsNot(config: Config, s: State, delivery: Delivery)
    requires s.closed || delivery.conversationId != config.conversationId
    ensures Next(config, s, Receive(delivery)) == s
  {
  }

  /** The request that a step has queued, behind the one before it. */
  ghost predicate Queues(s: State, t: State, operation: Operation, generation: nat, after: Option<nat>) {
    var id := |s.requests|;
    && |t.requests| == id + 1 && t.requests[id] == Request(operation, generation, after, Waiting, Undecided)
    && id in t.pending && t.tail == Some(id)
  }

  /** A connection change shows an empty view, and attaches anew when the connection is up. */
  lemma ConnectionIsShown(config: Config, s: State, up: bool)
    requires !s.closed
    ensures var t := Next(config, s, Connection(up));
            && Shown(t.client, [], if up then Connecting else Disconnected, None)
            && t.generation == s.generation + 1 == t.connection && t.connected == up
            && !t.busy && t.buffered == [] && !t.overflowed && t.refreshAttempts == 0
            && (forall id | id in s.pending && id < |s.requests| :: t.requests[id].race != Undecided)
            && (if up && config.maxPending > 0
                then Queues(s, t, Attach, s.generation + 1, None) && t.pending == {|s.requests|}
                else |t.requests| == |s.requests| && t.pending == {})
  {
  }

  lemma CommandIsQueued(config: Config, s: State, operation: Operation)
    ensures var t := Next(config, s, Command(operation));
            if !s.closed && |s.pending| < config.maxPending then
              && Queues(s, t, operation, s.generation, s.tail) && t.requests[..|s.requests|] == s.requests
              && t.pending == s.pending + {|s.requests|} && t.client == s.client
            else t == s
  {
  }

  /** A scheduled refresh asks for a snapshot, three times at most, and then says so. */
  lemma RefreshIsShown(config: Config, s: State)
    requires s.refreshScheduled
    ensures var t := Next(config, s, Refresh);
            && !t.refreshScheduled
            && if s.closed || s.client.status != Ready then
                 t.requests == s.requests && t.client == s.client && t.refreshAttempts == s.refreshAttempts
               else if s.refreshAttempts >= 3 then
                 t.requests == s.requests && Shown(t.client, s.client.view, Failing, Some(ResyncExhausted))
               else
                 && t.client == s.client && t.refreshAttempts == s.refreshAttempts + 1
                 && (|s.pending| < config.maxPending ==> Queues(s, t, TakeSnapshot, s.generation, s.tail))
  {
  }

  /** A request whose turn has come is sent exactly when it is of this connection and that is up. */
  lemma TurnIsTaken(config: Config, s: State, id: nat)
    requires Startable(s, id)
    ensures var t := Next(config, s, Start(id));
            if !s.closed && s.connected && s.requests[id].epoch == s.generation then
              ExecutingNow(t, id) && t.busy && t.requests[id].race == s.requests[id].race && t.client == s.client
            else
              t.requests[id].stage == Over && t.requests[id].race != Undecided && t.busy == s.busy && t.client == s.client
  {
  }

  // ---- it goes on -----------------------------------------------------------------------------------

  predicate CanGoOn(s: State, id: nat) {
    Startable(s, id) || Executes(s, id) || (id < |s.requests| && s.requests[id].race == Decided)
  }

  /** The oldest request of the generation that is not settled can start, is being executed, or can be
      cleaned up: none waits for ever on another. */
  lemma OldestCanGoOn(config: Config, up: bool, actions: seq<Action>, id: nat)
    requires var s := Run(config, up, actions);
             && Live(s, id) && s.requests[id].race != Settled
             && forall other: nat | Live(s, other) && other < id :: s.requests[other].race == Settled
    ensures CanGoOn(Run(config, up, actions), id)
  {
    RunKeeps(config, up, actions);
    var s := Run(config, up, actions);
    assert ChainedAt(s.requests, id);
  }

  lemma RunsThrough(config: Config, up: bool, first: Action, second: Action, third: Action)
    ensures Run(config, up, [first, second, third])
         == Next(config, Next(config, Next(config, Initial(config, up), first), second), third)
  {
    RunExtends(config, up, [], first);
    RunExtends(config, up, [first], second);
    RunExtends(config, up, [first, second], third);
    assert [] + [first] == [first] && [first] + [second] == [first, second];
    assert [first, second] + [third] == [first, second, third];
  }

  lemma AttachIsSent(config: Config)
    requires config.maxPending > 0
    ensures var s := Next(config, Initial(config, true), Start(0));
            && s.requests == [Request(Attach, 1, None, Executing, Undecided)] && s.pending == {0}
            && s.client.view == [] && s.buffered == [] && !s.overflowed && s.generation == 1
  {
  }

  /** The first thing an application sees: the snapshot that its attach is answered with. */
  lemma AttachShowsSnapshot(config: Config, snapshot: Snapshot)
    requires config.maxPending > 0 && snapshot.conversationId == config.conversationId
    ensures var s := Run(config, true, [Start(0), Settle(0, Answered(Some(snapshot))), CleanUp(0)]);
            Shown(s.client, [FromSnapshot(snapshot, 1)], Ready, None) && !s.busy && s.pending == {}
  {
    RunsThrough(config, true, Start(0), Settle(0, Answered(Some(snapshot))), CleanUp(0));
    AttachIsSent(config);
    var sent := Next(config, Initial(config, true), Start(0));
    assert [] + [FromSnapshot(snapshot, 1)] == [FromSnapshot(snapshot, 1)];
    SettledIsShown(config, sent, snapshot);
  }

  lemma SettledIsShown(config: Config, s: State, snapshot: Snapshot)
    requires s.requests == [Request(Attach, 1, None, Executing, Undecided)] && s.pending == {0} && s.generation == 1
    requires s.buffered == [] && !s.overflowed && snapshot.conversationId == config.conversationId
    ensures var t := Next(config, Next(config, s, Settle(0, Answered(Some(snapshot)))), CleanUp(0));
            Shown(t.client, s.client.view + [FromSnapshot(snapshot, 1)], Ready, None) && !t.busy && t.pending == {}
  {
    var settled := Next(config, s, Settle(0, Answered(Some(snapshot))));
    assert settled == DoSettle(config, s, 0, Answered(Some(snapshot)));
    assert settled.requests[0].race == Decided && settled.pending - {0} == {};
  }
}
