// The durable asynchronous operation harness (durable-async-operation-harness.ts) as a protocol
// over a compare-and-swap store. One action is one stretch between two awaits of one actor;
// a run is any sequence of actions, so workers, recovery, cancellation, progress reports and
// crashes interleave freely.
module DurableOperation {
  import opened Prelude

  datatype Phase = Pending | Running | Succeeded | Failed | Cancelled

  datatype Dispatch = NotDispatched | PossiblyDispatched | Acknowledged {
    function Rank(): nat {
      match this case NotDispatched => 0 case PossiblyDispatched => 1 case Acknowledged => 2
    }
  }

  /** What admission fixes once and for all. */
  datatype Request = Request(operationId: string, principalId: string, idempotencyKey: string, requestHash: string,
                             input: string)

  datatype Record = Record(
    request: Request,
    revision: nat,
    phase: Phase,
    attemptId: Option<string>,
    fencingToken: nat,
    cancelRequested: bool,
    dispatch: Dispatch,
    effectKey: Option<string>,
    receiptId: Option<string>,
    progress: Option<real>,
    result: Option<string>,
    artifacts: seq<string>,
    failureCode: Option<string>)

  datatype Outcome =
    | SucceededWith(receiptId: string, result: string, artifacts: seq<string>)
    | FailedWith(receiptId: string, code: string)

  predicate NonEmpty(value: Option<string>) {
    value.Some? ==> value.value != ""
  }

  /** The record schema: `nextRecord` throws when its patch does not satisfy it. */
  predicate Parses(record: Record) {
    && NonEmpty(record.attemptId) && NonEmpty(record.effectKey) && NonEmpty(record.receiptId)
    && NonEmpty(record.failureCode)
    && (record.progress.Some? ==> 0.0 <= record.progress.value <= 1.0)
    && forall artifact | artifact in record.artifacts :: artifact != ""
  }

  function PreparedRecord(record: Record, attemptId: string, effectKey: string): Record {
    record.(revision := record.revision + 1, phase := Running, attemptId := Some(attemptId),
            fencingToken := record.fencingToken + 1, dispatch := PossiblyDispatched, effectKey := Some(effectKey))
  }

  function ProgressRecord(record: Record, ratio: real): Record {
    record.(revision := record.revision + 1, progress := Some(ratio))
  }

  function CancelRecord(record: Record): Record {
    record.(revision := record.revision + 1, cancelRequested := true)
  }

  /** `commitTerminal` */
  function TerminalRecord(record: Record, outcome: Outcome): Record {
    match outcome
    case SucceededWith(receipt, result, artifacts) =>
      record.(revision := record.revision + 1, phase := Succeeded, dispatch := Acknowledged,
              receiptId := Some(receipt), progress := Some(1.0), result := Some(result), artifacts := artifacts)
    case FailedWith(receipt, code) =>
      record.(revision := record.revision + 1, phase := Failed, dispatch := Acknowledged,
              receiptId := Some(receipt), failureCode := Some(code))
  }

  predicate IsTerminal(record: Record) {
    record.phase in {Succeeded, Failed, Cancelled}
  }

  // ---- state -------------------------------------------------------------------------

  /** One activity of the harness, by the point it waits at. */
  datatype Actor =
    | Launched(operationId: string)
    | Preparing(current: Record, attemptId: string, effectKey: string)
    | Prepared(prepared: Record)
    | Submitted(active: Record)
    | Answered(active: Record, outcome: Outcome)
    | Committing(latest: Record, outcome: Outcome)
    | ReportReading(worker: nat, operationId: string, ratio: real)
    | Reporting(worker: nat, current: Record, ratio: real)
    | Cancelling(current: Record)
    | Recovering(todo: seq<Record>)
    | Reconciling(record: Record, todo: seq<Record>)
    | Recommitting(record: Record, outcome: Outcome, todo: seq<Record>)

  /** `submissions` is the history of `provider.submit` calls, newest last. */
  datatype State = State(
    store: map<string, Record>,
    actors: map<nat, Actor>,
    nextId: nat,
    submissions: seq<Record>)

  const INIT := State(map[], map[], 0, [])

  predicate Initial(record: Record) {
    && record.revision == 0 && record.phase == Pending && record.dispatch == NotDispatched
    && record.attemptId.None? && record.effectKey.None? && record.receiptId.None? && record.failureCode.None?
    && record.progress.None? && record.result.None? && record.artifacts == [] && !record.cancelRequested
  }

  predicate CanSwap(store: map<string, Record>, expected: nat, next: Record) {
    next.request.operationId in store && store[next.request.operationId].revision == expected
  }

  function Swapped(store: map<string, Record>, expected: nat, next: Record): map<string, Record> {
    if CanSwap(store, expected, next) then store[next.request.operationId := next] else store
  }

  // ---- actions ------------------------------------------------------------------------

  /** What lets a waiting actor go on, with what the store, the provider or the clock answered. */
  datatype Stretch =
    | Read(attemptId: string, effectKey: string)
    | Prepare
    | Submit
    | Answer(outcome: Outcome)
    | ReadLatest
    | Commit
    | ReportRead
    | ReportSwap
    | CancelSwap
    | RecoverNext
    | Reconciled(settled: Option<Outcome>)
    | Recommit

  datatype Action =
    | Admit(record: Record, launched: bool)
    | Cancel(operationId: string)
    | Recover(recoverable: seq<Record>)
    | Report(worker: nat, ratio: real)
    | Crash(victims: set<nat>)
    | Resume(id: nat, stretch: Stretch)

  function WithActors(s: State, actors: map<nat, Actor>): State {
    State(s.store, actors, s.nextId, s.submissions)
  }

  function WithStore(s: State, store: map<string, Record>): State {
    State(store, s.actors, s.nextId, s.submissions)
  }

  function Set(s: State, id: nat, actor: Actor): State {
    WithActors(s, s.actors[id := actor])
  }

  function Stop(s: State, id: nat): State {
    WithActors(s, s.actors - {id})
  }

  function Allotted(s: State): State {
    State(s.store, s.actors, s.nextId + 1, s.submissions)
  }

  function Spawn(s: State, actor: Actor): State {
    Set(Allotted(s), s.nextId, actor)
  }

  /** The store behind a write of `next`, which is not made when `next` does not parse. */
  function Written(s: State, expected: nat, next: Record): State {
    WithStore(s, if Parses(next) then Swapped(s.store, expected, next) else s.store)
  }

  predicate Wins(s: State, expected: nat, next: Record) {
    Parses(next) && CanSwap(s.store, expected, next)
  }

  function Next(s: State, action: Action): State {
    match action
    case Admit(record, launched) =>
      if record.request.operationId in s.store || !Initial(record) then s
      else
        var after := WithStore(s, s.store[record.request.operationId := record]);
        if launched then Spawn(after, Launched(record.request.operationId)) else after
    case Cancel(operationId) =>
      if operationId !in s.store || IsTerminal(s.store[operationId]) then s
      else Spawn(s, Cancelling(s.store[operationId]))
    case Recover(recoverable) =>
      if forall record | record in recoverable :: record in s.store.Values then Spawn(s, Recovering(recoverable)) else s
    case Crash(victims) => WithActors(s, s.actors - victims)
    case Report(id, ratio) =>
      if id in s.actors && s.actors[id].Submitted? then
        Spawn(s, ReportReading(id, s.actors[id].active.request.operationId, ratio))
      else s
    case Resume(id, stretch) => if id in s.actors then Act(s, id, s.actors[id], stretch) else s
  }

  // ---- stretches: of `execute`, of a progress report, of a cancel handler and of `recover` ------

  function DoRead(s: State, id: nat, operationId: string, attemptId: string, effectKey: string): State {
    if operationId in s.store && s.store[operationId].phase == Pending
    then Set(s, id, Preparing(s.store[operationId], attemptId, effectKey)) else Stop(s, id)
  }

  function DoPrepare(s: State, id: nat, current: Record, attemptId: string, effectKey: string): State {
    var next := PreparedRecord(current, attemptId, effectKey);
    if Wins(s, current.revision, next) then Set(Written(s, current.revision, next), id, Prepared(next)) else Stop(s, id)
  }

  function DoSubmit(s: State, id: nat, prepared: Record): State {
    Set(State(s.store, s.actors, s.nextId, s.submissions + [prepared]), id, Submitted(prepared))
  }

  function DoReadLatest(s: State, id: nat, active: Record, outcome: Outcome): State {
    var operationId := active.request.operationId;
    Set(s, id, Committing(if operationId in s.store then s.store[operationId] else active, outcome))
  }

  /** A write after which its actor stops, won or lost. */
  function DoLastWrite(s: State, id: nat, current: Record, next: Record): State {
    Stop(Written(s, current.revision, next), id)
  }

  function DoReportRead(s: State, id: nat, worker: nat, operationId: string, ratio: real): State {
    if operationId in s.store && s.store[operationId].phase == Running
    then Set(s, id, Reporting(worker, s.store[operationId], ratio)) else Stop(s, id)
  }

  function DoReport(s: State, id: nat, worker: nat, current: Record, ratio: real): State {
    var next := ProgressRecord(current, ratio);
    var after := DoLastWrite(s, id, current, next);
    if Wins(s, current.revision, next) && worker in after.actors then WithActive(after, worker, next) else after
  }

  /** `active = progressed`: the worker that is still waiting for its provider sees the progress. */
  function WithActive(s: State, worker: nat, progressed: Record): State
    requires worker in s.actors
  {
    match s.actors[worker]
    case Submitted(_) => Set(s, worker, Submitted(progressed))
    case Answered(_, outcome) => Set(s, worker, Answered(progressed, outcome))
    case _ => s
  }

  function DoRecoverNext(s: State, id: nat, todo: seq<Record>): State {
    if todo == [] then Stop(s, id)
    else
      var record, rest := todo[0], Recovering(todo[1..]);
      if record.dispatch == NotDispatched then Spawn(Set(s, id, rest), Launched(record.request.operationId))
      else if record.effectKey.None? || record.dispatch != PossiblyDispatched then Set(s, id, rest)
      else Set(s, id, Reconciling(record, todo[1..]))
  }

  function DoReconciled(s: State, id: nat, record: Record, todo: seq<Record>, settled: Option<Outcome>): State {
    Set(s, id, if settled.Some? then Recommitting(record, settled.value, todo) else Recovering(todo))
  }

  /** The loop goes on, whether the write is won or lost, unless it cannot be made. */
  function DoRecommit(s: State, id: nat, record: Record, outcome: Outcome, todo: seq<Record>): State {
    var next := TerminalRecord(record, outcome);
    if Parses(next) then Set(Written(s, record.revision, next), id, Recovering(todo)) else Stop(s, id)
  }

  function Act(s: State, id: nat, actor: Actor, stretch: Stretch): State {
    match (stretch, actor)
    case (Read(attemptId, effectKey), Launched(operationId)) => DoRead(s, id, operationId, attemptId, effectKey)
    case (Prepare, Preparing(current, attemptId, effectKey)) => DoPrepare(s, id, current, attemptId, effectKey)
    case (Submit, Prepared(prepared)) => DoSubmit(s, id, prepared)
    case (Answer(outcome), Submitted(active)) =>
      if outcome.SucceededWith? then Set(s, id, Answered(active, outcome)) else s
    case (ReadLatest, Answered(active, outcome)) => DoReadLatest(s, id, active, outcome)
    case (Commit, Committing(latest, outcome)) => DoLastWrite(s, id, latest, TerminalRecord(latest, outcome))
    case (ReportRead, ReportReading(worker, operationId, ratio)) => DoReportRead(s, id, worker, operationId, ratio)
    case (ReportSwap, Reporting(worker, current, ratio)) => DoReport(s, id, worker, current, ratio)
    case (CancelSwap, Cancelling(current)) => DoLastWrite(s, id, current, CancelRecord(current))
    case (RecoverNext, Recovering(todo)) => DoRecoverNext(s, id, todo)
    case (Reconciled(settled), Reconciling(record, todo)) => DoReconciled(s, id, record, todo, settled)
    case (Recommit, Recommitting(record, outcome, todo)) => DoRecommit(s, id, record, outcome, todo)
    case _ => s
  }

  function Run(s: State, actions: seq<Action>): State {
    if actions == [] then s else Next(Run(s, actions[..|actions| - 1]), actions[|actions| - 1])
  }

  // ---- the invariant --------------------------------------------------------------------

  /** Dispatch state follows the phase, and a settled operation holds its receipt. */
  predicate RecordOk(record: Record) {
    && (record.phase == Pending <==> record.dispatch == NotDispatched)
    && (record.phase == Running <==> record.dispatch == PossiblyDispatched)
    && (record.phase in {Succeeded, Failed} <==> record.dispatch == Acknowledged)
    && (record.effectKey.Some? <==> record.dispatch != NotDispatched)
    && (record.receiptId.Some? <==> record.dispatch == Acknowledged)
  }

  /** A local copy is a record the store once held: current as long as the revision is. */
  ghost predicate Copy(s: State, record: Record) {
    var id := record.request.operationId;
    && id in s.store && RecordOk(record)
    && record.request == s.store[id].request
    && record.revision <= s.store[id].revision
    && record.dispatch.Rank() <= s.store[id].dispatch.Rank()
    && (record.effectKey.Some? ==> record.effectKey == s.store[id].effectKey)
    && (record.revision == s.store[id].revision ==> record == s.store[id])
  }

  ghost predicate WasSubmitted(s: State, operationId: string) {
    exists i :: 0 <= i < |s.submissions| && s.submissions[i].request.operationId == operationId
  }

  ghost predicate ActorOk(s: State, actor: Actor) {
    match actor
    case Launched(_) => true
    case Preparing(current, _, _) => Copy(s, current) && current.phase == Pending
    case Prepared(prepared) =>
      Copy(s, prepared) && prepared.dispatch != NotDispatched && !WasSubmitted(s, prepared.request.operationId)
    case Submitted(active) => Copy(s, active) && active.dispatch != NotDispatched
    case Answered(active, _) => Copy(s, active) && active.dispatch != NotDispatched
    case Committing(latest, _) => Copy(s, latest) && latest.dispatch != NotDispatched
    case ReportReading(_, _, _) => true
    case Reporting(_, current, _) => Copy(s, current) && current.phase == Running
    case Cancelling(current) => Copy(s, current)
    case Recovering(todo) => forall record | record in todo :: Copy(s, record)
    case Reconciling(record, todo) =>
      Copy(s, record) && record.dispatch != NotDispatched && forall record | record in todo :: Copy(s, record)
    case Recommitting(record, _, todo) =>
      Copy(s, record) && record.dispatch != NotDispatched && forall record | record in todo :: Copy(s, record)
  }

  ghost predicate Inv(s: State) {
    && (forall id | id in s.store :: RecordOk(s.store[id]) && s.store[id].request.operationId == id)
    && (forall id | id in s.actors :: id < s.nextId && ActorOk(s, s.actors[id]))
    && (forall i, j | i in s.actors && j in s.actors && s.actors[i].Prepared? && s.actors[j].Prepared?
          && s.actors[i].prepared.request.operationId == s.actors[j].prepared.request.operationId :: i == j)
    && (forall i | 0 <= i < |s.submissions| :: Copy(s, s.submissions[i]) && s.submissions[i].dispatch != NotDispatched)
    && (forall i, j | 0 <= i < j < |s.submissions| ::
          s.submissions[i].request.operationId != s.submissions[j].request.operationId)
  }

  /** What one action may do to the stored records. */
  ghost predicate Advances(before: Record, after: Record) {
    after != before ==>
    && after.revision == before.revision + 1
    && after.request == before.request
    && before.dispatch.Rank() <= after.dispatch.Rank()
    && (after.phase == Pending ==> before.phase == Pending)
    && (before.cancelRequested ==> after.cancelRequested)
    && (before.effectKey.Some? ==> after.effectKey == before.effectKey)
    && before.fencingToken <= after.fencingToken
  }

  ghost predicate StoreAdvances(s: State, s': State) {
    && (forall id | id in s.store :: id in s'.store && Advances(s.store[id], s'.store[id]))
    && (forall id | id in s'.store && id !in s.store :: Initial(s'.store[id]))
  }
}
