// What actors of the durable operation protocol achieve that nothing disturbs: a worker, a report of its
// provider, a cancel request, a recovery
// (packages/core/examples/tools/durable-async-operation-harness.ts).
module DurableRuns {
  import opened Prelude
  import opened DurableOperation
  import opened DurableOutcomes

  lemma {:induction false} RunJoined(s: State, before: seq<Action>, behind: seq<Action>)
    ensures Run(s, before + behind) == Run(Run(s, before), behind)
  {
    var whole := before + behind;
    if behind == [] {
      assert whole == before;
    } else {
      assert whole[..|whole| - 1] == before + behind[..|behind| - 1];
      RunJoined(s, before, behind[..|behind| - 1]);
    }
  }

  lemma RunsThrough(s: State, first: Action, second: Action, third: Action)
    ensures Run(s, [first, second, third]) == Next(Next(Next(s, first), second), third)
  {
    var two, one := [first, second, third][..2], [first, second][..1];
    assert two == [first, second] && one == [first] && [first][..0] == [];
    assert Run(s, []) == s;
    assert Run(s, [first]) == Next(s, first);
    assert Run(s, [first, second]) == Next(Run(s, [first]), second);
  }

  function Starting(id: nat, attemptId: string, effectKey: string): seq<Action> {
    [Resume(id, Read(attemptId, effectKey)), Resume(id, Prepare), Resume(id, Submit)]
  }

  function Answering(id: nat, outcome: Outcome): seq<Action> {
    [Resume(id, Answer(outcome)), Resume(id, ReadLatest), Resume(id, Commit)]
  }

  lemma ReadsPending(s: State, id: nat, attemptId: string, effectKey: string)
    requires id in s.actors && s.actors[id].Launched?
    requires var op := s.actors[id].operationId; op in s.store && s.store[op].phase == Pending
    ensures Next(s, Resume(id, Read(attemptId, effectKey)))
         == Set(s, id, Preparing(s.store[s.actors[id].operationId], attemptId, effectKey))
  {
  }

  lemma SubmitsPrepared(s: State, id: nat)
    requires id in s.actors && s.actors[id].Prepared?
    ensures Next(s, Resume(id, Submit)) == DoSubmit(s, id, s.actors[id].prepared)
  {
  }

  lemma MarksPending(s: State, id: nat, attemptId: string, effectKey: string)
    requires Sound(s) && id in s.actors && s.actors[id].Launched? && attemptId != "" && effectKey != ""
    requires var op := s.actors[id].operationId; op in s.store && s.store[op].phase == Pending
    ensures var op := s.actors[id].operationId;
            var s' := Next(Next(s, Resume(id, Read(attemptId, effectKey))), Resume(id, Prepare));
            && Rewrites(s, s', op) && Marks(s.store[op], s'.store[op], attemptId, effectKey)
            && s'.actors == s.actors[id := Prepared(s'.store[op])]
            && s'.submissions == s.submissions && s'.nextId == s.nextId
  {
    var op := s.actors[id].operationId;
    var read := Next(s, Resume(id, Read(attemptId, effectKey)));
    ReadsPending(s, id, attemptId, effectKey);
    assert Sound(read) by { NextIsSound(s, Resume(id, Read(attemptId, effectKey))); }
    PrepareMarks(read, id);
    PrepareSubmitsNothing(read, id);
    var s' := Next(read, Resume(id, Prepare));
    assert s.actors[id := read.actors[id]][id := Prepared(s'.store[op])] == s.actors[id := Prepared(s'.store[op])];
  }

  lemma PrepareSubmitsNothing(s: State, id: nat)
    ensures var s' := Next(s, Resume(id, Prepare)); s'.submissions == s.submissions && s'.nextId == s.nextId
  {
  }

  /** A worker that starts on a pending operation marks it and submits what it has marked. */
  lemma StartSubmits(s: State, id: nat, attemptId: string, effectKey: string)
    requires Sound(s) && id in s.actors && s.actors[id].Launched? && attemptId != "" && effectKey != ""
    requires var op := s.actors[id].operationId; op in s.store && s.store[op].phase == Pending
    ensures var op, s' := s.actors[id].operationId, Run(s, Starting(id, attemptId, effectKey));
            && Rewrites(s, s', op) && Marks(s.store[op], s'.store[op], attemptId, effectKey)
            && s'.submissions == s.submissions + [s'.store[op]]
            && s'.actors == s.actors[id := Submitted(s'.store[op])]
  {
    var read, prepare, submit := Resume(id, Read(attemptId, effectKey)), Resume(id, Prepare), Resume(id, Submit);
    MarksPending(s, id, attemptId, effectKey);
    SubmitsPrepared(Next(Next(s, read), prepare), id);
    RunsThrough(s, read, prepare, submit);
  }

  lemma AnswerReadsOn(s: State, id: nat, outcome: Outcome)
    requires id in s.actors && s.actors[id].Submitted? && outcome.SucceededWith?
    requires s.actors[id].active.request.operationId in s.store
    ensures Next(Next(s, Resume(id, Answer(outcome))), Resume(id, ReadLatest))
         == Set(s, id, Committing(s.store[s.actors[id].active.request.operationId], outcome))
  {
    var active := s.actors[id].active;
    var answered := Set(s, id, Answered(active, outcome));
    assert Next(s, Resume(id, Answer(outcome))) == answered;
    assert s.actors[id := Answered(active, outcome)][id := Committing(s.store[active.request.operationId], outcome)]
        == s.actors[id := Committing(s.store[active.request.operationId], outcome)];
  }

  /** A provider's answer is put on record over whatever its operation has become meanwhile. */
  lemma AnswerIsRecorded(s: State, id: nat, outcome: Outcome)
    requires Sound(s) && id in s.actors && s.actors[id].Submitted? && outcome.SucceededWith? && Storable(outcome)
    ensures var op, s' := s.actors[id].active.request.operationId, Run(s, Answering(id, outcome));
            Rewrites(s, s', op) && Settles(s.store[op], s'.store[op], outcome)
  {
    var answer, read := Resume(id, Answer(outcome)), Resume(id, ReadLatest);
    var ready := Next(Next(s, answer), read);
    AnswerReadsOn(s, id, outcome);
    assert Sound(ready) by {
      NextIsSound(s, answer);
      NextIsSound(Next(s, answer), read);
    }
    CommitSettles(ready, id);
    RunsThrough(s, answer, read, Resume(id, Commit));
  }

  /** Undisturbed, a worker brings its operation from pending to succeeded with what the provider returned. */
  lemma WorkerSucceeds(s: State, id: nat, attemptId: string, effectKey: string, outcome: Outcome)
    requires Sound(s) && id in s.actors && s.actors[id].Launched? && attemptId != "" && effectKey != ""
    requires var op := s.actors[id].operationId; op in s.store && s.store[op].phase == Pending
    requires outcome.SucceededWith? && Storable(outcome)
    ensures var op, s' := s.actors[id].operationId, Run(s, Starting(id, attemptId, effectKey) + Answering(id, outcome));
            && op in s'.store
            && exists marked :: Marks(s.store[op], marked, attemptId, effectKey) && Settles(marked, s'.store[op], outcome)
  {
    RunJoined(s, Starting(id, attemptId, effectKey), Answering(id, outcome));
    StartSubmits(s, id, attemptId, effectKey);
    RunIsSound(s, Starting(id, attemptId, effectKey));
    AnswerIsRecorded(Run(s, Starting(id, attemptId, effectKey)), id, outcome);
  }

  function Recovery(s: State, record: Record, outcome: Outcome): seq<Action> {
    [Recover([record]), Resume(s.nextId, RecoverNext), Resume(s.nextId, Reconciled(Some(outcome)))]
  }

  /** A crash stops its victims where they wait; what is on record stays, for a recovery to find. */
  lemma CrashStops(s: State, victims: set<nat>)
    ensures var s' := Next(s, Crash(victims));
            && s'.store == s.store && s'.submissions == s.submissions
            && forall id :: id in s'.actors <==> id in s.actors && id !in victims
    ensures forall id | id in s.actors && id !in victims :: Next(s, Crash(victims)).actors[id] == s.actors[id]
  {
  }

  lemma RecoverySpawns(s: State, records: seq<Record>)
    requires forall record | record in records :: record in s.store.Values
    ensures Next(s, Recover(records)) == Spawn(s, Recovering(records))
  {
  }

  /** A recovery takes its records one by one: a record that was never marked is launched anew, one in flight
      is asked about, and one that is settled is passed over. */
  lemma RecoveryGoesOn(s: State, id: nat, todo: seq<Record>)
    requires id in s.actors && s.actors[id] == Recovering(todo) && todo != [] && RecordOk(todo[0])
    ensures var record, rest := todo[0], Recovering(todo[1..]);
            Next(s, Resume(id, RecoverNext)) ==
              match record.dispatch
              case NotDispatched => Spawn(Set(s, id, rest), Launched(record.request.operationId))
              case PossiblyDispatched => Set(s, id, Reconciling(record, todo[1..]))
              case Acknowledged => Set(s, id, rest)
  {
  }

  /** It goes on with the others at once where the provider knows of no outcome. */
  lemma RecoveryIsTold(s: State, id: nat, settled: Option<Outcome>)
    requires id in s.actors && s.actors[id].Reconciling?
    ensures var record, todo := s.actors[id].record, s.actors[id].todo;
            Next(s, Resume(id, Reconciled(settled)))
              == Set(s, id, if settled.Some? then Recommitting(record, settled.value, todo) else Recovering(todo))
  {
  }

  lemma RecoveryHears(s: State, record: Record, outcome: Outcome)
    requires record in s.store.Values && record.dispatch == PossiblyDispatched && RecordOk(record)
    ensures var s' := Run(s, Recovery(s, record, outcome));
            s'.store == s.store && s'.actors == s.actors[s.nextId := Recommitting(record, outcome, [])]
  {
    var id := s.nextId;
    var begun := Spawn(s, Recovering([record]));
    RecoverySpawns(s, [record]);
    RecoveryGoesOn(begun, id, [record]);
    RecoveryIsTold(Set(begun, id, Reconciling(record, [])), id, Some(outcome));
    RunsThrough(s, Recover([record]), Resume(id, RecoverNext), Resume(id, Reconciled(Some(outcome))));
    assert [record][1..] == [];
    assert s.actors[id := Recovering([record])][id := Reconciling(record, [])][id := Recommitting(record, outcome, [])]
        == s.actors[id := Recommitting(record, outcome, [])];
  }

  /** What a recovery hears about an operation in flight it puts on record. */
  lemma RecoveryIsRecorded(s: State, op: string, outcome: Outcome)
    requires Sound(s) && op in s.store && s.store[op].dispatch == PossiblyDispatched && Storable(outcome)
    ensures var record := s.store[op];
            var s' := Next(Run(s, Recovery(s, record, outcome)), Resume(s.nextId, Recommit));
            && Rewrites(s, s', op) && Settles(record, s'.store[op], outcome)
            && s'.actors == s.actors[s.nextId := Recovering([])]
  {
    var record := s.store[op];
    var heard := Run(s, Recovery(s, record, outcome));
    RecoveryHears(s, record, outcome);
    assert Sound(heard) by { RunIsSound(s, Recovery(s, record, outcome)); }
    HeardIsRecorded(s, heard, op, outcome);
  }

  lemma HeardIsRecorded(s: State, heard: State, op: string, outcome: Outcome)
    requires Sound(heard) && heard.store == s.store && op in s.store && s.store[op].request.operationId == op
    requires heard.actors == s.actors[s.nextId := Recommitting(s.store[op], outcome, [])] && Storable(outcome)
    ensures var s' := Next(heard, Resume(s.nextId, Recommit));
            && Rewrites(s, s', op) && Settles(s.store[op], s'.store[op], outcome)
            && s'.actors == s.actors[s.nextId := Recovering([])]
  {
    RecommitSettles(heard, s.nextId);
    RecommitGoesOn(heard, s.nextId);
    assert s.actors[s.nextId := heard.actors[s.nextId]][s.nextId := Recovering([])] == s.actors[s.nextId := Recovering([])];
  }

  lemma RecommitGoesOn(s: State, id: nat)
    requires id in s.actors && s.actors[id].Recommitting?
    ensures var s' := Next(s, Resume(id, Recommit));
            s'.store != s.store ==> s'.actors == s.actors[id := Recovering(s.actors[id].todo)]
  {
  }

  /** It happens: a recovery beside a live worker puts a failure on record, and the worker its success over it. */
  lemma FailureIsWrittenOver(s: State, id: nat, failure: Outcome, success: Outcome)
    requires Sound(s) && id in s.actors && s.actors[id].Submitted? && failure.FailedWith? && success.SucceededWith?
    requires Storable(failure) && Storable(success)
    requires s.store[s.actors[id].active.request.operationId].dispatch == PossiblyDispatched
    ensures var op := s.actors[id].active.request.operationId;
            var failed := Next(Run(s, Recovery(s, s.store[op], failure)), Resume(s.nextId, Recommit));
            var s' := Run(failed, Answering(id, success));
            && op in failed.store && failed.store[op].phase == Failed
            && op in s'.store && s'.store[op].phase == Succeeded && s'.store[op].failureCode == Some(failure.code)
  {
    var op := s.actors[id].active.request.operationId;
    var failed := Next(Run(s, Recovery(s, s.store[op], failure)), Resume(s.nextId, Recommit));
    RecoveryIsRecorded(s, op, failure);
    assert Sound(failed) by {
      RunIsSound(s, Recovery(s, s.store[op], failure));
      NextIsSound(Run(s, Recovery(s, s.store[op], failure)), Resume(s.nextId, Recommit));
    }
    AnswerIsRecorded(failed, id, success);
  }

  lemma RunsTwo(s: State, first: Action, second: Action)
    ensures Run(s, [first, second]) == Next(Next(s, first), second)
  {
    assert [first, second][..1] == [first] && [first][..0] == [];
    assert Run(s, []) == s;
    assert Run(s, [first]) == Next(s, first);
  }

  /** A new operation is stored and its worker launched; one that is there stays as it is. */
  lemma AdmissionLaunches(s: State, record: Record)
    requires Sound(s) && Initial(record)
    ensures var s', op := Next(s, Admit(record, true)), record.request.operationId;
            if op in s.store then s' == s
            else
              && s'.store == s.store[op := record]
              && s.nextId in s'.actors && s'.actors[s.nextId] == Launched(op)
  {
  }

  lemma ReportReads(s: State, id: nat, ratio: real)
    requires id in s.actors && s.actors[id].Submitted?
    requires var op := s.actors[id].active.request.operationId; op in s.store && s.store[op].phase == Running
    ensures var op := s.actors[id].active.request.operationId;
            var ready := Next(Next(s, Report(id, ratio)), Resume(s.nextId, ReportRead));
            && ready.store == s.store
            && s.nextId in ready.actors && ready.actors[s.nextId] == Reporting(id, s.store[op], ratio)
  {
    var op := s.actors[id].active.request.operationId;
    var reading := Spawn(s, ReportReading(id, op, ratio));
    assert Next(s, Report(id, ratio)) == reading;
    assert Next(reading, Resume(s.nextId, ReportRead)) == DoReportRead(reading, s.nextId, id, op, ratio);
  }

  /** Progress that a provider reports while its operation runs is put on record. */
  lemma ReportIsRecorded(s: State, id: nat, ratio: real)
    requires Sound(s) && id in s.actors && s.actors[id].Submitted? && 0.0 <= ratio <= 1.0
    requires s.store[s.actors[id].active.request.operationId].phase == Running
    ensures var op := s.actors[id].active.request.operationId;
            var s' := Run(s, [Report(id, ratio), Resume(s.nextId, ReportRead), Resume(s.nextId, ReportSwap)]);
            Rewrites(s, s', op) && Progresses(s.store[op], s'.store[op], ratio)
  {
    var ready := Next(Next(s, Report(id, ratio)), Resume(s.nextId, ReportRead));
    ReportReads(s, id, ratio);
    assert Sound(ready) by {
      NextIsSound(s, Report(id, ratio));
      NextIsSound(Next(s, Report(id, ratio)), Resume(s.nextId, ReportRead));
    }
    ReportProgresses(ready, s.nextId);
    RunsThrough(s, Report(id, ratio), Resume(s.nextId, ReportRead), Resume(s.nextId, ReportSwap));
  }

  /** A cancel request is put on record unless the operation is settled; the operation goes on. */
  lemma CancelIsRecorded(s: State, op: string)
    requires Sound(s) && op in s.store
    ensures var s' := Run(s, [Cancel(op), Resume(s.nextId, CancelSwap)]);
            if s.store[op].phase == Pending || s.store[op].phase == Running then
              Rewrites(s, s', op) && Asks(s.store[op], s'.store[op])
            else s' == s
  {
    RunsTwo(s, Cancel(op), Resume(s.nextId, CancelSwap));
    if s.store[op].phase == Pending || s.store[op].phase == Running {
      var asking := Next(s, Cancel(op));
      assert asking == Spawn(s, Cancelling(s.store[op]));
      assert Sound(asking) by { NextIsSound(s, Cancel(op)); }
      CancelAsks(asking, s.nextId);
    } else {
      assert s.nextId !in s.actors;
    }
  }
}
