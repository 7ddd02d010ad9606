// Every step of the durable operation protocol keeps its invariant
// (packages/core/examples/tools/durable-async-operation-harness.ts).
module DurableSteps {
  import opened Prelude
  import opened DurableOperation

  lemma SetKeeps(s: State, id: nat, actor: Actor)
    requires Inv(s) && id < s.nextId && ActorOk(s, actor)
    requires actor.Prepared? ==> forall j | j in s.actors && j != id && s.actors[j].Prepared? ::
               s.actors[j].prepared.request.operationId != actor.prepared.request.operationId
    ensures Inv(Set(s, id, actor))
  {
    var after := Set(s, id, actor);
    forall j | j in after.actors ensures j < after.nextId && ActorOk(after, after.actors[j]) {
      ActorOkDependsOn(s, after, after.actors[j]);
    }
  }

  /** Setting an identity aside changes nothing for the actors there are. */
  lemma AllotKeeps(s: State, actor: Actor)
    requires Inv(s) && ActorOk(s, actor)
    ensures Inv(Allotted(s)) && ActorOk(Allotted(s), actor)
  {
    var wider := Allotted(s);
    forall j | j in s.actors ensures ActorOk(wider, s.actors[j]) {
      ActorOkDependsOn(s, wider, s.actors[j]);
    }
    ActorOkDependsOn(s, wider, actor);
  }

  lemma SpawnKeeps(s: State, actor: Actor)
    requires Inv(s) && ActorOk(s, actor) && !actor.Prepared?
    ensures Inv(Spawn(s, actor))
  {
    AllotKeeps(s, actor);
    SetKeeps(Allotted(s), s.nextId, actor);
  }

  lemma StopKeeps(s: State, victims: set<nat>)
    requires Inv(s)
    ensures Inv(WithActors(s, s.actors - victims))
  {
    var after := WithActors(s, s.actors - victims);
    forall j | j in after.actors ensures ActorOk(after, after.actors[j]) {
      ActorOkDependsOn(s, after, s.actors[j]);
    }
  }

  /** Whether an actor is sound depends on the store and the submissions only. */
  lemma ActorOkDependsOn(s: State, s': State, actor: Actor)
    requires s.store == s'.store && s.submissions == s'.submissions
    ensures ActorOk(s, actor) == ActorOk(s', actor)
  {
    assert forall record :: Copy(s, record) == Copy(s', record);
    assert forall id :: WasSubmitted(s, id) == WasSubmitted(s', id);
  }

  /** The heart of compare-and-swap: a write derived from a copy keeps every other copy sound. */
  lemma SwapKeeps(s: State, current: Record, next: Record)
    requires Inv(s) && Copy(s, current) && RecordOk(next) && Advances(current, next) && next != current
    ensures var s' := WithStore(s, Swapped(s.store, current.revision, next));
            && Inv(s') && StoreAdvances(s, s')
            && (CanSwap(s.store, current.revision, next) ==> s.store[next.request.operationId] == current && Copy(s', next))
  {
    var s' := WithStore(s, Swapped(s.store, current.revision, next));
    assert forall record :: Copy(s, record) ==> Copy(s', record);
    forall id | id in s'.actors ensures ActorOk(s', s'.actors[id]) {
      CopiesStay(s, s', s.actors[id]);
    }
  }

  lemma CopiesStay(s: State, s': State, actor: Actor)
    requires forall record :: Copy(s, record) ==> Copy(s', record)
    requires s.submissions == s'.submissions && ActorOk(s, actor)
    ensures ActorOk(s', actor)
  {
    assert forall id :: WasSubmitted(s, id) == WasSubmitted(s', id);
  }

  /** The invariant is kept, and stored records only move forward. */
  ghost predicate Keeps(s: State, s': State) {
    Inv(s') && StoreAdvances(s, s')
  }

  lemma WrittenKeeps(s: State, current: Record, next: Record)
    requires Inv(s) && Copy(s, current) && RecordOk(next) && Advances(current, next) && next != current
    ensures var s' := Written(s, current.revision, next);
            && Keeps(s, s')
            && (Wins(s, current.revision, next) ==> s.store[next.request.operationId] == current && Copy(s', next))
            && (forall record :: Copy(s, record) ==> Copy(s', record))
  {
    if Parses(next) {
      SwapKeeps(s, current, next);
    } else {
      assert Written(s, current.revision, next) == s;
    }
  }

  lemma LastWriteKeeps(s: State, id: nat, current: Record, next: Record)
    requires Inv(s) && Copy(s, current) && RecordOk(next) && Advances(current, next) && next != current
    ensures var s' := DoLastWrite(s, id, current, next);
            Keeps(s, s') && (Wins(s, current.revision, next) ==> Copy(s', next))
  {
    WrittenKeeps(s, current, next);
    StopKeeps(Written(s, current.revision, next), {id});
  }

  lemma RecommitKeeps(s: State, id: nat, record: Record, outcome: Outcome, todo: seq<Record>)
    requires Inv(s) && id < s.nextId && ActorOk(s, Recommitting(record, outcome, todo))
    ensures Keeps(s, DoRecommit(s, id, record, outcome, todo))
  {
    var next := TerminalRecord(record, outcome);
    TerminalAdvances(record, outcome);
    if Parses(next) {
      WrittenKeeps(s, record, next);
      SetKeeps(Written(s, record.revision, next), id, Recovering(todo));
    } else {
      StopKeeps(s, {id});
    }
  }

  lemma PrepareKeeps(s: State, id: nat, current: Record, attemptId: string, effectKey: string)
    requires Inv(s) && id < s.nextId && ActorOk(s, Preparing(current, attemptId, effectKey))
    ensures Keeps(s, DoPrepare(s, id, current, attemptId, effectKey))
  {
    var next := PreparedRecord(current, attemptId, effectKey);
    if Wins(s, current.revision, next) {
      var operationId := next.request.operationId;
      WrittenKeeps(s, current, next);
      NothingPrepared(s, operationId);
      assert !WasSubmitted(Written(s, current.revision, next), operationId);
      SetKeeps(Written(s, current.revision, next), id, Prepared(next));
    } else {
      StopKeeps(s, {id});
    }
  }

  /** While an operation is pending nobody has marked it, and nobody has submitted it. */
  lemma NothingPrepared(s: State, operationId: string)
    requires Inv(s) && operationId in s.store && s.store[operationId].phase == Pending
    ensures !WasSubmitted(s, operationId)
    ensures forall j | j in s.actors && s.actors[j].Prepared? :: s.actors[j].prepared.request.operationId != operationId
  {
  }

  lemma SubmitKeeps(s: State, id: nat)
    requires Inv(s) && id in s.actors && s.actors[id].Prepared?
    ensures Keeps(s, DoSubmit(s, id, s.actors[id].prepared))
  {
    var prepared := s.actors[id].prepared;
    var after := DoSubmit(s, id, prepared);
    assert forall record :: Copy(s, record) == Copy(after, record);
    assert forall i | 0 <= i < |s.submissions| ::
        s.submissions[i].request.operationId != prepared.request.operationId;
    forall j | j in after.actors ensures ActorOk(after, after.actors[j]) {
      if j != id && s.actors[j].Prepared? {
        assert s.actors[j].prepared.request.operationId != prepared.request.operationId;
        assert !WasSubmitted(after, s.actors[j].prepared.request.operationId);
      }
    }
  }

  lemma ReadKeeps(s: State, id: nat, operationId: string, attemptId: string, effectKey: string)
    requires Inv(s) && id < s.nextId
    ensures Keeps(s, DoRead(s, id, operationId, attemptId, effectKey))
  {
    if operationId in s.store && s.store[operationId].phase == Pending {
      SetKeeps(s, id, Preparing(s.store[operationId], attemptId, effectKey));
    } else {
      StopKeeps(s, {id});
    }
  }

  lemma AnswerKeeps(s: State, id: nat, active: Record, outcome: Outcome)
    requires Inv(s) && id < s.nextId && ActorOk(s, Submitted(active))
    ensures Keeps(s, Set(s, id, Answered(active, outcome))) && Keeps(s, s)
  {
    SetKeeps(s, id, Answered(active, outcome));
  }

  lemma ReadLatestKeeps(s: State, id: nat, active: Record, outcome: Outcome)
    requires Inv(s) && id < s.nextId && ActorOk(s, Answered(active, outcome))
    ensures Keeps(s, DoReadLatest(s, id, active, outcome))
  {
    SetKeeps(s, id, Committing(s.store[active.request.operationId], outcome));
  }

  lemma ReportReadKeeps(s: State, id: nat, worker: nat, operationId: string, ratio: real)
    requires Inv(s) && id < s.nextId
    ensures Keeps(s, DoReportRead(s, id, worker, operationId, ratio))
  {
    if operationId in s.store && s.store[operationId].phase == Running {
      SetKeeps(s, id, Reporting(worker, s.store[operationId], ratio));
    } else {
      StopKeeps(s, {id});
    }
  }

  lemma ReportKeeps(s: State, id: nat, worker: nat, current: Record, ratio: real)
    requires Inv(s) && ActorOk(s, Reporting(worker, current, ratio))
    ensures Keeps(s, DoReport(s, id, worker, current, ratio))
  {
    var next := ProgressRecord(current, ratio);
    var after := DoLastWrite(s, id, current, next);
    LastWriteKeeps(s, id, current, next);
    if Wins(s, current.revision, next) && worker in after.actors {
      ActiveKeeps(after, worker, next);
    }
  }

  lemma ActiveKeeps(s: State, worker: nat, progressed: Record)
    requires Inv(s) && worker in s.actors && Copy(s, progressed) && progressed.dispatch != NotDispatched
    ensures Inv(WithActive(s, worker, progressed)) && WithActive(s, worker, progressed).store == s.store
  {
    match s.actors[worker]
    case Submitted(_) => SetKeeps(s, worker, Submitted(progressed));
    case Answered(_, outcome) => SetKeeps(s, worker, Answered(progressed, outcome));
    case _ =>
  }

  lemma RecoverNextKeeps(s: State, id: nat, todo: seq<Record>)
    requires Inv(s) && id < s.nextId && ActorOk(s, Recovering(todo))
    ensures Keeps(s, DoRecoverNext(s, id, todo))
  {
    if todo == [] {
      StopKeeps(s, {id});
    } else {
      assert ActorOk(s, Recovering(todo[1..]));
      SetKeeps(s, id, Recovering(todo[1..]));
      if todo[0].dispatch == NotDispatched {
        SpawnKeeps(Set(s, id, Recovering(todo[1..])), Launched(todo[0].request.operationId));
      } else {
        SetKeeps(s, id, Reconciling(todo[0], todo[1..]));
      }
    }
  }

  lemma ReconciledKeeps(s: State, id: nat, record: Record, todo: seq<Record>, settled: Option<Outcome>)
    requires Inv(s) && id < s.nextId && ActorOk(s, Reconciling(record, todo))
    ensures Keeps(s, DoReconciled(s, id, record, todo, settled))
  {
    SetKeeps(s, id, if settled.Some? then Recommitting(record, settled.value, todo) else Recovering(todo));
  }

  lemma AdmitKeeps(s: State, record: Record, launched: bool)
    requires Inv(s)
    ensures Keeps(s, Next(s, Admit(record, launched)))
  {
    if record.request.operationId !in s.store && Initial(record) {
      AdmittedKeeps(s, record);
      SpawnKeeps(WithStore(s, s.store[record.request.operationId := record]), Launched(record.request.operationId));
    }
  }

  lemma AdmittedKeeps(s: State, record: Record)
    requires Inv(s) && record.request.operationId !in s.store && Initial(record)
    ensures Keeps(s, WithStore(s, s.store[record.request.operationId := record]))
  {
    var after := WithStore(s, s.store[record.request.operationId := record]);
    assert forall other :: Copy(s, other) ==> Copy(after, other);
    forall id | id in after.actors ensures ActorOk(after, after.actors[id]) {
      CopiesStay(s, after, s.actors[id]);
    }
  }

  lemma TerminalAdvances(record: Record, outcome: Outcome)
    requires RecordOk(record) && record.dispatch != NotDispatched
    ensures var next := TerminalRecord(record, outcome);
            RecordOk(next) && Advances(record, next) && next != record && next.request == record.request
  {
  }

  lemma CommitKeeps(s: State, id: nat, latest: Record, outcome: Outcome)
    requires Inv(s) && ActorOk(s, Committing(latest, outcome))
    ensures Keeps(s, DoLastWrite(s, id, latest, TerminalRecord(latest, outcome)))
  {
    TerminalAdvances(latest, outcome);
    LastWriteKeeps(s, id, latest, TerminalRecord(latest, outcome));
  }

  /** The stretches of a worker's `execute` up to the submission. */
  lemma SubmissionKeeps(s: State, id: nat, stretch: Stretch)
    requires Inv(s) && id in s.actors && (stretch in {Prepare, Submit} || stretch.Read?)
    ensures Keeps(s, Act(s, id, s.actors[id], stretch))
  {
    match (stretch, s.actors[id])
    case (Read(attemptId, effectKey), Launched(operationId)) => ReadKeeps(s, id, operationId, attemptId, effectKey);
    case (Prepare, Preparing(current, attemptId, effectKey)) => PrepareKeeps(s, id, current, attemptId, effectKey);
    case (Submit, Prepared(_)) => SubmitKeeps(s, id);
    case _ =>
  }

  /** And from the provider's answer on. */
  lemma SettlementKeeps(s: State, id: nat, stretch: Stretch)
    requires Inv(s) && id in s.actors && (stretch in {ReadLatest, Commit} || stretch.Answer?)
    ensures Keeps(s, Act(s, id, s.actors[id], stretch))
  {
    match (stretch, s.actors[id])
    case (Answer(outcome), Submitted(active)) => AnswerKeeps(s, id, active, outcome);
    case (ReadLatest, Answered(active, outcome)) => ReadLatestKeeps(s, id, active, outcome);
    case (Commit, Committing(latest, outcome)) => CommitKeeps(s, id, latest, outcome);
    case _ =>
  }

  /** The stretches of progress reports and cancel handlers. */
  lemma HandlerKeeps(s: State, id: nat, stretch: Stretch)
    requires Inv(s) && id in s.actors
    requires stretch in {ReportRead, ReportSwap, CancelSwap}
    ensures Keeps(s, Act(s, id, s.actors[id], stretch))
  {
    match (stretch, s.actors[id])
    case (ReportRead, ReportReading(worker, operationId, ratio)) => ReportReadKeeps(s, id, worker, operationId, ratio);
    case (ReportSwap, Reporting(worker, current, ratio)) => ReportKeeps(s, id, worker, current, ratio);
    case (CancelSwap, Cancelling(current)) => LastWriteKeeps(s, id, current, CancelRecord(current));
    case _ =>
  }

  /** The stretches of `recover`. */
  lemma RecoveryKeeps(s: State, id: nat, stretch: Stretch)
    requires Inv(s) && id in s.actors
    requires stretch in {RecoverNext, Recommit} || stretch.Reconciled?
    ensures Keeps(s, Act(s, id, s.actors[id], stretch))
  {
    match (stretch, s.actors[id])
    case (RecoverNext, Recovering(todo)) => RecoverNextKeeps(s, id, todo);
    case (Reconciled(settled), Reconciling(record, todo)) => ReconciledKeeps(s, id, record, todo, settled);
    case (Recommit, Recommitting(record, outcome, todo)) => RecommitKeeps(s, id, record, outcome, todo);
    case _ =>
  }

  /** Every action keeps the invariant and only moves stored records forward. */
  lemma NextKeeps(s: State, action: Action)
    requires Inv(s)
    ensures Inv(Next(s, action)) && StoreAdvances(s, Next(s, action))
  {
    match action
    case Admit(record, launched) => AdmitKeeps(s, record, launched);
    case Cancel(operationId) =>
      if operationId in s.store { SpawnKeeps(s, Cancelling(s.store[operationId])); }
    case Recover(recoverable) =>
      if forall record | record in recoverable :: record in s.store.Values { SpawnKeeps(s, Recovering(recoverable)); }
    case Crash(victims) => StopKeeps(s, victims);
    case Report(worker, ratio) =>
      if worker in s.actors && s.actors[worker].Submitted? {
        SpawnKeeps(s, ReportReading(worker, s.actors[worker].active.request.operationId, ratio));
      }
    case Resume(id, stretch) =>
      if id in s.actors {
        match stretch
        case ReportRead => HandlerKeeps(s, id, stretch);
        case ReportSwap => HandlerKeeps(s, id, stretch);
        case CancelSwap => HandlerKeeps(s, id, stretch);
        case RecoverNext => RecoveryKeeps(s, id, stretch);
        case Reconciled(_) => RecoveryKeeps(s, id, stretch);
        case Recommit => RecoveryKeeps(s, id, stretch);
        case Read(_, _) => SubmissionKeeps(s, id, stretch);
        case Prepare => SubmissionKeeps(s, id, stretch);
        case Submit => SubmissionKeeps(s, id, stretch);
        case _ => SettlementKeeps(s, id, stretch);
      }
  }
}
