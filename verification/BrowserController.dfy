// The browser handle on one conversation (packages/core/src/agent-runtime/browser-controller.ts):
// requests serialised on a promise tail, deliveries buffered while a request is in flight, and
// generations that fence off everything from an earlier connection. One stretch between two
// `await`s is one step.
module BrowserController {
  import opened Prelude

  // ---- what the application sees -----------------------------------------------------------------

  datatype Code = EventOverflow | Forbidden | ResyncExhausted | RequestFailed | Reported(code: string)

  datatype Status = Connecting | Ready | Disconnected | Failing | Closed

  datatype DeliveryKind = Event(payload: string) | AccessDenied | Overflow

  /** `bytes` is the length of the UTF-8 encoding of the delivery's JSON text. */
  datatype Delivery = Delivery(conversationId: string, kind: DeliveryKind, bytes: nat)

  /** A delivery, with the connection on which it came in. */
  datatype Arrival = Arrival(delivery: Delivery, connection: nat)

  datatype Snapshot = Snapshot(conversationId: string, payload: string)

  /** What a view was folded from; every reducer over events and snapshots factors through it. */
  datatype Entry = FromEvent(arrival: Arrival) | FromSnapshot(snapshot: Snapshot, connection: nat) {
    function Connection(): nat {
      if FromEvent? then arrival.connection else connection
    }
  }

  type View = seq<Entry>

  datatype Client = Client(status: Status, view: View, error: Option<Code>)

  datatype Config = Config(
    conversationId: string,
    maxEvents: nat,
    maxBytes: nat,
    maxPending: nat,
    resyncRequired: View -> bool
  )

  function Fail(client: Client, code: Code): Client {
    client.(status := Failing, error := Some(code))
  }

  function Apply(client: Client, arrival: Arrival): Client {
    match arrival.delivery.kind
    case Event(_) => client.(view := client.view + [FromEvent(arrival)])
    case AccessDenied => Fail(client, Forbidden)
    case Overflow => Fail(client, EventOverflow)
  }

  function ApplyAll(client: Client, arrivals: seq<Arrival>): Client {
    if arrivals == [] then client
    else Apply(ApplyAll(client, arrivals[..|arrivals| - 1]), arrivals[|arrivals| - 1])
  }

  function Bytes(arrivals: seq<Arrival>): nat {
    if arrivals == [] then 0 else Bytes(arrivals[..|arrivals| - 1]) + arrivals[|arrivals| - 1].delivery.bytes
  }

  // ---- requests ------------------------------------------------------------------------------------

  datatype Operation = Attach | TakeSnapshot | Detach | Other(command: string)

  /** `execute`: not started, waiting for the acknowledgement, or through. */
  datatype Stage = Waiting | Executing | Over

  /** The promise handed out: undecided, decided with its clean-up due, or settled for everybody. */
  datatype Race = Undecided | Decided | Settled

  /** `after` is the request whose settling is waited for; `epoch` the generation of the call. */
  datatype Request = Request(operation: Operation, epoch: nat, after: Option<nat>, stage: Stage, race: Race)

  /** How a call on the transport ends. */
  datatype Outcome =
    | Lost
    | Misaddressed
    | Refused(code: string)
    | Answered(snapshot: Option<Snapshot>)

  // ---- the controller ------------------------------------------------------------------------------

  /** Requests are identified by their place in the order of creation; `connection` is the
      generation of the last connection change. */
  datatype State = State(
    client: Client,
    generation: nat,
    closed: bool,
    connected: bool,
    busy: bool,
    buffered: seq<Arrival>,
    bufferedBytes: nat,
    overflowed: bool,
    refreshScheduled: bool,
    refreshAttempts: nat,
    requests: seq<Request>,
    pending: set<nat>,
    tail: Option<nat>,
    connection: nat
  )

  datatype Action =
    | Command(operation: Operation)
    | Start(id: nat)
    | Settle(id: nat, outcome: Outcome)
    | CleanUp(id: nat)
    | Refresh
    | Receive(delivery: Delivery)
    | Connection(up: bool)
    | Close

  predicate Live(s: State, id: nat) {
    id < |s.requests| && s.requests[id].epoch == s.generation
  }

  /** The request the controller should be busy with. */
  predicate ExecutingNow(s: State, id: nat) {
    Live(s, id) && s.requests[id].stage == Executing
  }

  function SetRequest(s: State, id: nat, request: Request): State
    requires id < |s.requests|
  {
    s.(requests := s.requests[id := request])
  }

  function Admits(config: Config, s: State): bool {
    !s.closed && |s.pending| < config.maxPending
  }

  function DoCommand(config: Config, s: State, operation: Operation): State {
    if !Admits(config, s) then s
    else
      var id := |s.requests|;
      s.(requests := s.requests + [Request(operation, s.generation, s.tail, Waiting, Undecided)],
         pending := s.pending + {id},
         tail := Some(id))
  }

  predicate Startable(s: State, id: nat) {
    && id < |s.requests|
    && s.requests[id].stage == Waiting
    && (s.requests[id].after.Some? ==>
          s.requests[id].after.value < |s.requests| && s.requests[s.requests[id].after.value].race == Settled)
  }

  /** `execute` up to the call on the transport, or its refusal to make one. */
  function DoStart(s: State, id: nat): State
    requires Startable(s, id)
  {
    var request := s.requests[id];
    if s.closed || request.epoch != s.generation || !s.connected then
      SetRequest(s, id, Ended(request))
    else
      SetRequest(s, id, request.(stage := Executing)).(busy := true)
  }

  /** A promise is decided once. */
  function Decide(request: Request): Request {
    if request.race == Undecided then request.(race := Decided) else request
  }

  function Ended(request: Request): Request {
    Decide(request).(stage := Over)
  }

  predicate Executes(s: State, id: nat) {
    id < |s.requests| && s.requests[id].stage == Executing
  }

  predicate Foreign(config: Config, outcome: Outcome) {
    outcome.Answered? && outcome.snapshot.Some? && outcome.snapshot.value.conversationId != config.conversationId
  }

  predicate Reads(config: Config, outcome: Outcome) {
    outcome.Answered? && outcome.snapshot.Some? && outcome.snapshot.value.conversationId == config.conversationId
  }

  /** The client after the reply to a request that is still of the current generation. */
  function Replied(config: Config, client: Client, request: Request, outcome: Outcome): Client {
    if outcome.Lost? || outcome.Misaddressed? || Foreign(config, outcome) then Fail(client, RequestFailed)
    else if outcome.Refused? then Fail(client, Reported(outcome.code))
    else
      var read :=
        if Reads(config, outcome)
        then Client(Ready, client.view + [FromSnapshot(outcome.snapshot.value, request.epoch)], None)
        else client;
      if request.operation.Detach? then read.(status := Disconnected) else read
  }

  /** A snapshot that catches up makes the automatic refreshes start over. */
  predicate CatchesUp(config: Config, client: Client, request: Request, outcome: Outcome) {
    Reads(config, outcome) && !config.resyncRequired(Replied(config, client, request, outcome).view)
  }

  function Drained(client: Client, arrivals: seq<Arrival>, overflowed: bool): Client {
    var applied := ApplyAll(client, arrivals);
    if overflowed then Fail(applied, EventOverflow) else applied
  }

  /** `execute` from the acknowledgement to its end; a stale one touches nothing of the client. */
  function DoSettle(config: Config, s: State, id: nat, outcome: Outcome): State
    requires Executes(s, id)
  {
    var request := s.requests[id];
    var over := SetRequest(s, id, Ended(request));
    if request.epoch != s.generation then over
    else
      over.(client := Drained(Replied(config, s.client, request, outcome), s.buffered, s.overflowed),
            busy := false,
            buffered := [],
            bufferedBytes := 0,
            overflowed := false,
            refreshAttempts := if CatchesUp(config, s.client, request, outcome) then 0 else s.refreshAttempts)
  }

  function ScheduleRefresh(config: Config, s: State): State {
    if s.refreshScheduled || s.busy || |s.pending| >= config.maxPending || s.client.status != Ready
       || !config.resyncRequired(s.client.view)
    then s
    else s.(refreshScheduled := true)
  }

  /** The `finally` of a decided request. */
  function DoCleanUp(config: Config, s: State, id: nat): State
    requires id < |s.requests|
  {
    ScheduleRefresh(config, SetRequest(s, id, s.requests[id].(race := Settled)).(pending := s.pending - {id}))
  }

  /** The scheduled microtask. */
  function DoRefresh(config: Config, s: State): State {
    var taken := s.(refreshScheduled := false);
    if s.closed || s.client.status != Ready then taken
    else
      var counted := taken.(refreshAttempts := s.refreshAttempts + 1);
      if counted.refreshAttempts > 3 then counted.(client := Fail(s.client, ResyncExhausted))
      else DoCommand(config, counted, TakeSnapshot)
  }

  function Buffer(config: Config, s: State, arrival: Arrival): State {
    if s.overflowed || |s.buffered| >= config.maxEvents
       || s.bufferedBytes + arrival.delivery.bytes > config.maxBytes
    then s.(overflowed := true, buffered := [], bufferedBytes := 0)
    else s.(buffered := s.buffered + [arrival], bufferedBytes := s.bufferedBytes + arrival.delivery.bytes)
  }

  function DoReceive(config: Config, s: State, delivery: Delivery): State {
    if s.closed || delivery.conversationId != config.conversationId then s
    else
      var arrival := Arrival(delivery, s.connection);
      if s.busy then Buffer(config, s, arrival)
      else ScheduleRefresh(config, s.(client := Apply(s.client, arrival)))
  }

  function Superseded(requests: seq<Request>, pending: set<nat>): (superseded: seq<Request>)
    ensures |superseded| == |requests|
    ensures forall id | 0 <= id < |requests| ::
              superseded[id] == if id in pending then Decide(requests[id]) else requests[id]
  {
    seq(|requests|, id requires 0 <= id < |requests| => if id in pending then Decide(requests[id]) else requests[id])
  }

  /** A new generation, with nothing of the previous one but its unfinished calls. */
  function Renewed(s: State, up: bool): State {
    State(
      client := Client(if up then Connecting else Disconnected, [], None),
      generation := s.generation + 1,
      closed := s.closed,
      connected := up,
      busy := false,
      buffered := [],
      bufferedBytes := 0,
      overflowed := false,
      refreshScheduled := s.refreshScheduled,
      refreshAttempts := 0,
      requests := Superseded(s.requests, s.pending),
      pending := {},
      tail := None,
      connection := s.generation + 1)
  }

  /** `changed`: a connection that came up is attached to at once. */
  function DoChanged(config: Config, s: State, up: bool): State {
    if up then DoCommand(config, Renewed(s, up), Attach) else Renewed(s, up)
  }

  /** `close` unsubscribes, so later connection changes reach the transport alone. */
  function DoConnection(config: Config, s: State, up: bool): State {
    if s.closed then s.(connected := up) else DoChanged(config, s, up)
  }

  function DoClose(s: State): State {
    if s.closed then s
    else s.(closed := true, generation := s.generation + 1, client := s.client.(status := Closed))
  }

  /** One step; a step that is not due leaves everything as it is. */
  function Next(config: Config, s: State, action: Action): State {
    match action
    case Command(operation) => DoCommand(config, s, operation)
    case Start(id) => if Startable(s, id) then DoStart(s, id) else s
    case Settle(id, outcome) => if Executes(s, id) then DoSettle(config, s, id, outcome) else s
    case CleanUp(id) => if id < |s.requests| && s.requests[id].race == Decided then DoCleanUp(config, s, id) else s
    case Refresh => if s.refreshScheduled then DoRefresh(config, s) else s
    case Receive(delivery) => DoReceive(config, s, delivery)
    case Connection(up) => DoConnection(config, s, up)
    case Close => DoClose(s)
  }

  const BLANK := State(Client(Connecting, [], None), 0, false, false, false, [], 0, false, false, 0, [], {}, None, 0)

  /** The constructor ends with the connection as it finds it. */
  function Initial(config: Config, up: bool): State {
    DoChanged(config, BLANK, up)
  }

  function Run(config: Config, up: bool, actions: seq<Action>): State {
    if actions == [] then Initial(config, up)
    else Next(config, Run(config, up, actions[..|actions| - 1]), actions[|actions| - 1])
  }

  // ---- invariants ------------------------------------------------------------------------------

  ghost predicate BufferInv(config: Config, s: State) {
    && |s.buffered| <= config.maxEvents
    && s.bufferedBytes == Bytes(s.buffered) <= config.maxBytes
    && (!s.busy ==> !s.overflowed)
    && (!s.busy || s.overflowed ==> s.buffered == [])
  }

  /** Requests of one generation wait for each other in the order of the calls. */
  ghost predicate Chained(requests: seq<Request>) {
    forall id | 0 <= id < |requests| :: ChainedAt(requests, id)
  }

  ghost predicate ChainedAt(requests: seq<Request>, id: nat)
    requires id < |requests|
  {
    match requests[id].after
    case None => forall earlier | 0 <= earlier < id :: requests[earlier].epoch < requests[id].epoch
    case Some(before) =>
      && before < id
      && requests[before].epoch == requests[id].epoch
      && forall between | before < between < id :: requests[between].epoch < requests[id].epoch
  }

  /** The tail is the last request of generation `g`, which no request is beyond. */
  ghost predicate TailOf(requests: seq<Request>, g: nat, tail: Option<nat>) {
    match tail
    case None => forall id | 0 <= id < |requests| :: requests[id].epoch < g
    case Some(last) =>
      && last < |requests| && requests[last].epoch == g
      && forall id | last < id < |requests| :: requests[id].epoch < g
  }

  /** In generation `g` a request starts when every earlier one has settled, and is decided when
      it is over. */
  ghost predicate Serial(requests: seq<Request>, g: nat) {
    && (forall id | 0 <= id < |requests| && requests[id].epoch == g ::
          requests[id].race == Undecided <==> requests[id].stage != Over)
    && (forall a, b | 0 <= a < b < |requests| && requests[a].epoch == g && requests[b].epoch == g ::
          requests[b].stage == Waiting || requests[a].race == Settled)
  }

  ghost predicate RequestInv(s: State) {
    && (if s.closed then s.connection < s.generation else s.connection == s.generation)
    && (forall id | 0 <= id < |s.requests| :: s.requests[id].epoch <= s.connection)
    && Chained(s.requests)
    && Serial(s.requests, s.generation)
    && (!s.closed ==> TailOf(s.requests, s.generation, s.tail))
  }

  /** While the controller is open, `busy` says that a request of its generation executes. */
  ghost predicate BusyInv(s: State) {
    !s.closed ==> (s.busy <==> exists id: nat :: ExecutingNow(s, id))
  }

  ghost predicate PendingInv(config: Config, s: State) {
    && |s.pending| <= config.maxPending
    && (forall id | id in s.pending :: id < |s.requests| && s.requests[id].race != Settled)
    && (!s.closed ==> forall id: nat :: id in s.pending <==> Live(s, id) && s.requests[id].race != Settled)
  }

  /** Nothing in the view or waiting to enter it came over an earlier connection. */
  ghost predicate FenceInv(s: State) {
    && (forall entry | entry in s.client.view :: entry.Connection() == s.connection)
    && (forall arrival | arrival in s.buffered :: arrival.connection == s.connection)
  }

  /** The half of the invariant about requests and promises. */
  ghost predicate QueueInv(config: Config, s: State) {
    RequestInv(s) && BusyInv(s) && PendingInv(config, s)
  }

  /** The half about deliveries and what the application sees. */
  ghost predicate ClientInv(config: Config, s: State) {
    BufferInv(config, s) && FenceInv(s) && (s.closed <==> s.client.status == Closed)
  }

  ghost predicate Inv(config: Config, s: State) {
    QueueInv(config, s) && ClientInv(config, s)
  }
}
