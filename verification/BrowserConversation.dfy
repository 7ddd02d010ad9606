// The conversation controller object of the browser, its fields updated method by method
// (packages/core/src/agent-runtime/browser-controller.ts).
module BrowserConversation {
  import opened Prelude
  import opened BrowserController

  class ConversationController {
    const config: Config
    var client: Client
    var generation: nat
    var closed: bool
    var connected: bool
    var busy: bool
    var buffered: seq<Arrival>
    var bufferedBytes: nat
    var overflowed: bool
    var refreshScheduled: bool
    var refreshAttempts: nat
    var requests: seq<Request>
    var pending: set<nat>
    var tail: Option<nat>
    var connection: nat

    ghost function Value(): State
      reads this
    {
      State(client, generation, closed, connected, busy, buffered, bufferedBytes, overflowed, refreshScheduled,
            refreshAttempts, requests, pending, tail, connection)
    }

    constructor (config: Config, up: bool)
      ensures this.config == config
      ensures Value() == Initial(config, up)
    {
      this.config := config;
      client := Client(Connecting, [], None);
      generation, connection, bufferedBytes, refreshAttempts := 0, 0, 0, 0;
      closed, connected, busy, overflowed, refreshScheduled := false, false, false, false, false;
      buffered, requests, pending, tail := [], [], {}, None;
      new;
      Changed(up);
    }

    /** `request`: refused without capacity, otherwise queued behind the tail. */
    method SendRequest(operation: Operation) returns (accepted: bool)
      modifies this
      ensures accepted <==> Admits(config, old(Value()))
      ensures Value() == DoCommand(config, old(Value()), operation)
    {
      if closed || |pending| >= config.maxPending {
        return false;
      }
      var id := |requests|;
      requests := requests + [Request(operation, generation, tail, Waiting, Undecided)];
      pending := pending + {id};
      tail := Some(id);
      accepted := true;
    }

    /** A connection change. */
    method Changed(up: bool)
      requires !closed
      modifies this
      ensures Value() == DoChanged(config, old(Value()), up)
    {
      ghost var before := Value();
      SupersedeRequests(up);
      ForgetDeliveries();
      client := Client(if up then Connecting else Disconnected, [], None);
      assert Value() == Renewed(before, up);
      if up {
        var _ := SendRequest(Attach);
      }
    }

    method SupersedeRequests(up: bool)
      modifies this`generation, this`connection, this`connected, this`requests, this`pending, this`tail
      ensures generation == connection == old(generation) + 1 && connected == up
      ensures requests == Superseded(old(requests), old(pending)) && pending == {} && tail == None
    {
      generation := generation + 1;
      connection := generation;
      connected := up;
      requests := Superseded(requests, pending);
      pending := {};
      tail := None;
    }

    method ForgetDeliveries()
      modifies this`busy, this`buffered, this`bufferedBytes, this`overflowed, this`refreshAttempts
      ensures !busy && buffered == [] && bufferedBytes == 0 && !overflowed && refreshAttempts == 0
    {
      busy := false;
      buffered := [];
      bufferedBytes := 0;
      overflowed := false;
      refreshAttempts := 0;
    }

    method PlanRefresh()
      modifies this`refreshScheduled
      ensures Value() == ScheduleRefresh(config, old(Value()))
    {
      if refreshScheduled || busy || |pending| >= config.maxPending || client.status != Ready
         || !config.resyncRequired(client.view)
      {
        return;
      }
      refreshScheduled := true;
    }

    /** The microtask of a scheduled refresh. */
    method RunScheduledRefresh()
      modifies this
      ensures Value() == DoRefresh(config, old(Value()))
    {
      refreshScheduled := false;
      if !closed && client.status == Ready {
        refreshAttempts := refreshAttempts + 1;
        if refreshAttempts > 3 {
          client := Fail(client, ResyncExhausted);
          return;
        }
        var _ := SendRequest(TakeSnapshot);
      }
    }

    /** `execute` up to the call on the transport, once its turn has come. */
    method BeginExecute(id: nat) returns (sent: bool)
      requires Startable(Value(), id)
      modifies this
      ensures Value() == DoStart(old(Value()), id)
      ensures sent <==> ExecutingNow(Value(), id)
    {
      var request := requests[id];
      if closed || request.epoch != generation || !connected {
        requests := requests[id := Ended(request)];
        return false;
      }
      busy := true;
      requests := requests[id := request.(stage := Executing)];
      sent := true;
    }

    /** `execute` from the acknowledgement on: the reply, then what was buffered meanwhile. */
    method EndExecute(id: nat, outcome: Outcome)
      requires RequestInv(Value()) && Executes(Value(), id)
      modifies this`requests, this`client, this`busy, this`buffered, this`bufferedBytes, this`overflowed, this`refreshAttempts
      ensures Value() == DoSettle(config, old(Value()), id, outcome)
    {
      var request := requests[id];
      requests := requests[id := Ended(request)];
      if closed || request.epoch != generation {
        return;
      }
      TakeReply(request, outcome);
      ReleaseBuffer();
    }

    /** The request is over: apply what was buffered, or report that it was too much. */
    method ReleaseBuffer()
      modifies this`client, this`busy, this`buffered, this`bufferedBytes, this`overflowed
      ensures client == Drained(old(client), old(buffered), old(overflowed))
      ensures !busy && buffered == [] && bufferedBytes == 0 && !overflowed
    {
      busy := false;
      var deliveries := buffered;
      buffered := [];
      bufferedBytes := 0;
      for i := 0 to |deliveries|
        modifies this`client
        invariant client == ApplyAll(old(client), deliveries[..i])
      {
        assert deliveries[..i + 1][..i] == deliveries[..i];
        client := Apply(client, deliveries[i]);
      }
      assert deliveries[..|deliveries|] == deliveries;
      if overflowed {
        overflowed := false;
        client := Fail(client, EventOverflow);
      }
    }

    method TakeReply(request: Request, outcome: Outcome)
      modifies this`client, this`refreshAttempts
      ensures client == Replied(config, old(client), request, outcome)
      ensures refreshAttempts == if CatchesUp(config, old(client), request, outcome) then 0 else old(refreshAttempts)
    {
      match outcome
      case Lost => client := Fail(client, RequestFailed);
      case Misaddressed => client := Fail(client, RequestFailed);
      case Refused(code) => client := Fail(client, Reported(code));
      case Answered(snapshot) =>
        if snapshot.Some? {
          if snapshot.value.conversationId != config.conversationId {
            client := Fail(client, RequestFailed);
            return;
          }
          client := Client(Ready, client.view + [FromSnapshot(snapshot.value, request.epoch)], None);
          if !config.resyncRequired(client.view) {
            refreshAttempts := 0;
          }
        }
        if request.operation.Detach? {
          client := client.(status := Disconnected);
        }
    }

    /** The `finally` of a request that has been decided. */
    method FinishRequest(id: nat)
      requires id < |requests| && requests[id].race == Decided
      modifies this
      ensures Value() == DoCleanUp(config, old(Value()), id)
    {
      requests := requests[id := requests[id].(race := Settled)];
      pending := pending - {id};
      PlanRefresh();
    }

    method OnDelivery(delivery: Delivery)
      modifies this
      ensures Value() == DoReceive(config, old(Value()), delivery)
    {
      if closed || delivery.conversationId != config.conversationId {
        return;
      }
      var arrival := Arrival(delivery, connection);
      if busy {
        if overflowed || |buffered| >= config.maxEvents || bufferedBytes + delivery.bytes > config.maxBytes {
          overflowed := true;
          buffered := [];
          bufferedBytes := 0;
        } else {
          buffered := buffered + [arrival];
          bufferedBytes := bufferedBytes + delivery.bytes;
        }
      } else {
        client := Apply(client, arrival);
        PlanRefresh();
      }
    }

    method CloseController()
      modifies this
      ensures Value() == DoClose(old(Value()))
    {
      if closed {
        return;
      }
      closed := true;
      generation := generation + 1;
      client := client.(status := Closed);
    }
  }
}
