// The delivery buffer of the browser controller stays within its bounds, and its view free of
// earlier connections (packages/core/src/agent-runtime/browser-controller.ts).
module BrowserDeliveries {
  import opened BrowserController
  import opened BrowserRequests

  function EventsOf(arrivals: seq<Arrival>): View {
    if arrivals == [] then []
    else
      var last := arrivals[|arrivals| - 1];
      EventsOf(arrivals[..|arrivals| - 1]) + if last.delivery.kind.Event? then [FromEvent(last)] else []
  }

  /** Applying deliveries folds exactly their events into the view, in order, and closes nothing. */
  lemma {:induction false} ApplyAllAppends(client: Client, arrivals: seq<Arrival>)
    ensures ApplyAll(client, arrivals).view == client.view + EventsOf(arrivals)
    ensures client.status != Closed ==> ApplyAll(client, arrivals).status != Closed
    ensures forall entry | entry in EventsOf(arrivals) :: entry.FromEvent? && entry.arrival in arrivals
  {
    if arrivals != [] {
      ApplyAllAppends(client, arrivals[..|arrivals| - 1]);
    }
  }

  lemma BytesOfLonger(arrivals: seq<Arrival>, arrival: Arrival)
    ensures Bytes(arrivals + [arrival]) == Bytes(arrivals) + arrival.delivery.bytes
  {
    assert (arrivals + [arrival])[..|arrivals|] == arrivals;
  }

  /** Steps that leave the deliveries and the view as they are. */
  lemma QueueStepKeepsClient(config: Config, s: State, t: State)
    requires ClientInv(config, s)
    requires t.client == s.client && t.buffered == s.buffered && t.bufferedBytes == s.bufferedBytes
    requires t.overflowed == s.overflowed && t.connection == s.connection && t.closed == s.closed
    requires t.busy == s.busy || !s.busy
    ensures ClientInv(config, t)
  {
  }

  /** While busy, an arrival of this connection is buffered, or is one too many. */
  lemma BufferKeepsBounds(config: Config, s: State, arrival: Arrival)
    requires BufferInv(config, s) && s.busy
    ensures BufferInv(config, Buffer(config, s, arrival))
  {
    BytesOfLonger(s.buffered, arrival);
  }

  lemma BufferKeepsClient(config: Config, s: State, arrival: Arrival)
    requires ClientInv(config, s) && s.busy && arrival.connection == s.connection
    ensures ClientInv(config, Buffer(config, s, arrival))
  {
    BufferKeepsBounds(config, s, arrival);
  }

  /** Otherwise it is applied at once. */
  lemma ApplyKeepsClient(config: Config, s: State, arrival: Arrival)
    requires ClientInv(config, s) && !s.closed && arrival.connection == s.connection
    ensures ClientInv(config, s.(client := Apply(s.client, arrival)))
  {
  }

  lemma ScheduleKeepsClient(config: Config, s: State)
    requires ClientInv(config, s)
    ensures ClientInv(config, ScheduleRefresh(config, s))
  {
    QueueStepKeepsClient(config, s, ScheduleRefresh(config, s));
  }

  lemma ReceiveKeepsClient(config: Config, s: State, delivery: Delivery)
    requires ClientInv(config, s)
    ensures ClientInv(config, DoReceive(config, s, delivery))
  {
    if !s.closed && delivery.conversationId == config.conversationId {
      var arrival := Arrival(delivery, s.connection);
      if s.busy {
        BufferKeepsClient(config, s, arrival);
      } else {
        ApplyKeepsClient(config, s, arrival);
        ScheduleKeepsClient(config, s.(client := Apply(s.client, arrival)));
      }
    }
  }

  lemma SettleKeepsClient(config: Config, s: State, id: nat, outcome: Outcome)
    requires QueueInv(config, s) && ClientInv(config, s) && Executes(s, id)
    ensures ClientInv(config, DoSettle(config, s, id, outcome))
  {
    if Live(s, id) {
      ApplyAllAppends(Replied(config, s.client, s.requests[id], outcome), s.buffered);
    }
  }

  /** The controller is idle when a request of its generation starts. */
  lemma StartFindsIdle(config: Config, s: State, id: nat)
    requires QueueInv(config, s) && Startable(s, id) && Live(s, id)
    ensures !s.closed && !s.busy
    ensures forall other: nat :: !ExecutingNow(s, other)
  {
    TurnIsFree(s.requests, s.generation, id);
  }

  lemma CommandKeepsClient(config: Config, s: State, operation: Operation)
    requires ClientInv(config, s)
    ensures ClientInv(config, DoCommand(config, s, operation))
  {
    QueueStepKeepsClient(config, s, DoCommand(config, s, operation));
  }

  lemma CleanUpKeepsClient(config: Config, s: State, id: nat)
    requires ClientInv(config, s) && id < |s.requests|
    ensures ClientInv(config, DoCleanUp(config, s, id))
  {
    QueueStepKeepsClient(config, s, DoCleanUp(config, s, id));
  }

  lemma StartKeepsClient(config: Config, s: State, id: nat)
    requires QueueInv(config, s) && ClientInv(config, s) && Startable(s, id)
    ensures ClientInv(config, DoStart(s, id))
  {
    if Live(s, id) {
      StartFindsIdle(config, s, id);
    }
    QueueStepKeepsClient(config, s, DoStart(s, id));
  }

  lemma RefreshKeepsClient(config: Config, s: State)
    requires ClientInv(config, s)
    ensures ClientInv(config, DoRefresh(config, s))
  {
    if !s.closed && s.client.status == Ready && s.refreshAttempts >= 3 {
      assert ClientInv(config, s.(client := Fail(s.client, ResyncExhausted)));
    } else {
      QueueStepKeepsClient(config, s, DoRefresh(config, s));
    }
  }

  lemma ClientNextKeeps(config: Config, s: State, action: Action)
    requires QueueInv(config, s) && ClientInv(config, s)
    ensures ClientInv(config, Next(config, s, action))
  {
    match action
    case Command(operation) => CommandKeepsClient(config, s, operation);
    case Start(id) => if Startable(s, id) { StartKeepsClient(config, s, id); }
    case Settle(id, outcome) => if Executes(s, id) { SettleKeepsClient(config, s, id, outcome); }
    case CleanUp(id) => if id < |s.requests| { CleanUpKeepsClient(config, s, id); }
    case Refresh => RefreshKeepsClient(config, s);
    case Receive(delivery) => ReceiveKeepsClient(config, s, delivery);
    case Connection(up) => ConnectionKeepsClient(config, s, up);
    case Close => CloseKeepsClient(config, s);
  }

  lemma ConnectionKeepsClient(config: Config, s: State, up: bool)
    requires ClientInv(config, s)
    ensures ClientInv(config, DoConnection(config, s, up))
  {
  }

  lemma CloseKeepsClient(config: Config, s: State)
    requires ClientInv(config, s)
    ensures ClientInv(config, DoClose(s))
  {
  }

  lemma NextKeeps(config: Config, s: State, action: Action)
    requires Inv(config, s)
    ensures Inv(config, Next(config, s, action))
  {
    QueueNextKeeps(config, s, action);
    ClientNextKeeps(config, s, action);
  }
}
