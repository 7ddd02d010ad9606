// What the writes of the durable operation protocol put on record, and what a record therefore tells of
// the outcomes an operation was settled with
// (packages/core/examples/tools/durable-async-operation-harness.ts).
module DurableOutcomes {
  import opened Prelude
  import opened DurableOperation
  import opened DurableSteps

  /** What admission, the attempt and a cancel request have put on record. */
  ghost predicate SameAttempt(before: Record, after: Record) {
    && after.request == before.request && after.attemptId == before.attemptId && after.effectKey == before.effectKey
    && after.fencingToken == before.fencingToken && after.cancelRequested == before.cancelRequested
  }

  /** What a provider has put on record. */
  ghost predicate SameSettlement(before: Record, after: Record) {
    && after.receiptId == before.receiptId && after.result == before.result
    && after.artifacts == before.artifacts && after.failureCode == before.failureCode
  }

  /** The mark that comes before a submission. */
  ghost predicate Marks(before: Record, after: Record, attemptId: string, effectKey: string) {
    && after.phase == Running && after.dispatch == PossiblyDispatched
    && after.attemptId == Some(attemptId) && after.effectKey == Some(effectKey)
    && after.fencingToken == before.fencingToken + 1
    && after.request == before.request && after.cancelRequested == before.cancelRequested
    && SameSettlement(before, after) && after.progress == before.progress
  }

  ghost predicate Progresses(before: Record, after: Record, ratio: real) {
    && after.progress == Some(ratio)
    && SameAttempt(before, after) && SameSettlement(before, after)
    && after.phase == before.phase && after.dispatch == before.dispatch
  }

  ghost predicate Asks(before: Record, after: Record) {
    && after.cancelRequested
    && after.request == before.request && after.attemptId == before.attemptId && after.effectKey == before.effectKey
    && after.fencingToken == before.fencingToken && SameSettlement(before, after)
    && after.phase == before.phase && after.dispatch == before.dispatch && after.progress == before.progress
  }

  ghost predicate Settles(before: Record, after: Record, outcome: Outcome) {
    && SameAttempt(before, after) && after.dispatch == Acknowledged && after.receiptId == Some(outcome.receiptId)
    && match outcome
       case SucceededWith(_, result, artifacts) =>
         && after.phase == Succeeded && after.result == Some(result) && after.artifacts == artifacts
         && after.progress == Some(1.0) && after.failureCode == before.failureCode
       case FailedWith(_, code) =>
         && after.phase == Failed && after.failureCode == Some(code)
         && after.result == before.result && after.artifacts == before.artifacts && after.progress == before.progress
  }

  /** What the record schema asks of an outcome. */
  predicate Storable(outcome: Outcome) {
    && outcome.receiptId != ""
    && match outcome
       case SucceededWith(_, _, artifacts) => forall artifact | artifact in artifacts :: artifact != ""
       case FailedWith(_, code) => code != ""
  }

  /** One record alone has changed, by one revision, to one that parses. */
  ghost predicate Rewrites(s: State, s': State, operationId: string) {
    && s'.store.Keys == s.store.Keys && operationId in s.store
    && (forall other | other in s.store && other != operationId :: s'.store[other] == s.store[other])
    && s'.store[operationId].revision == s.store[operationId].revision + 1 && Parses(s'.store[operationId])
  }

  ghost predicate Sound(s: State) {
    Inv(s) && forall id | id in s.store :: Parses(s.store[id])
  }

  // ---- the four writes ------------------------------------------------------------------------

  lemma TerminalSettles(record: Record, outcome: Outcome)
    requires Parses(record)
    ensures var next := TerminalRecord(record, outcome);
            && Settles(record, next, outcome) && next.revision == record.revision + 1
            && (Parses(next) <==> Storable(outcome))
  {
  }

  /** A write of a copy with one revision more. */
  lemma WriteRewrites(s: State, current: Record, next: Record)
    requires Sound(s) && Copy(s, current) && next.request == current.request && next.revision == current.revision + 1
    ensures var s', op := Written(s, current.revision, next), current.request.operationId;
            if Wins(s, current.revision, next) then
              s.store[op] == current && Rewrites(s, s', op) && s'.store[op] == next
            else s'.store == s.store
    ensures Wins(s, current.revision, next) <==>
              s.store[current.request.operationId].revision == current.revision && Parses(next)
  {
  }

  /** The mark is made exactly when nobody has written since the read. */
  lemma PrepareMarks(s: State, id: nat)
    requires Sound(s) && id in s.actors && s.actors[id].Preparing?
    ensures var (current, attemptId, effectKey) := (s.actors[id].current, s.actors[id].attemptId, s.actors[id].effectKey);
            var s', op := Next(s, Resume(id, Prepare)), current.request.operationId;
            if s.store[op].revision == current.revision && attemptId != "" && effectKey != "" then
              && Rewrites(s, s', op) && Marks(s.store[op], s'.store[op], attemptId, effectKey)
              && s'.actors == s.actors[id := Prepared(s'.store[op])]
            else s'.store == s.store && s'.actors == s.actors - {id}
  {
    var actor := s.actors[id];
    WriteRewrites(s, actor.current, PreparedRecord(actor.current, actor.attemptId, actor.effectKey));
  }

  lemma ReportProgresses(s: State, id: nat)
    requires Sound(s) && id in s.actors && s.actors[id].Reporting?
    ensures var current, ratio, s' := s.actors[id].current, s.actors[id].ratio, Next(s, Resume(id, ReportSwap));
            var op := current.request.operationId;
            if s.store[op].revision == current.revision && 0.0 <= ratio <= 1.0 then
              Rewrites(s, s', op) && Progresses(s.store[op], s'.store[op], ratio) && s.store[op].phase == Running
            else s'.store == s.store
  {
    var current, worker, ratio := s.actors[id].current, s.actors[id].worker, s.actors[id].ratio;
    WriteRewrites(s, current, ProgressRecord(current, ratio));
    assert Next(s, Resume(id, ReportSwap)) == DoReport(s, id, worker, current, ratio);
    ReportStores(s, id, worker, current, ratio);
  }

  /** What a report tells its worker does not touch the store. */
  lemma ReportStores(s: State, id: nat, worker: nat, current: Record, ratio: real)
    ensures DoReport(s, id, worker, current, ratio).store
         == Written(s, current.revision, ProgressRecord(current, ratio)).store
  {
  }

  lemma CancelAsks(s: State, id: nat)
    requires Sound(s) && id in s.actors && s.actors[id].Cancelling?
    ensures var current, s' := s.actors[id].current, Next(s, Resume(id, CancelSwap));
            var op := current.request.operationId;
            if s.store[op].revision == current.revision then Rewrites(s, s', op) && Asks(s.store[op], s'.store[op])
            else s'.store == s.store
  {
    WriteRewrites(s, s.actors[id].current, CancelRecord(s.actors[id].current));
  }

  /** The outcome that is committed is put on record as it is, by the worker or by a recovery, exactly when
      nobody has written since the read. */
  lemma CommitSettles(s: State, id: nat)
    requires Sound(s) && id in s.actors && s.actors[id].Committing?
    ensures var latest, outcome, s' := s.actors[id].latest, s.actors[id].outcome, Next(s, Resume(id, Commit));
            var op := latest.request.operationId;
            if s.store[op].revision == latest.revision && Storable(outcome) then
              Rewrites(s, s', op) && Settles(s.store[op], s'.store[op], outcome)
            else s'.store == s.store
  {
    var latest, outcome := s.actors[id].latest, s.actors[id].outcome;
    SettlesOrNot(s, latest, outcome);
    assert Next(s, Resume(id, Commit)) == DoLastWrite(s, id, latest, TerminalRecord(latest, outcome));
  }

  lemma RecommitSettles(s: State, id: nat)
    requires Sound(s) && id in s.actors && s.actors[id].Recommitting?
    ensures var record, outcome, s' := s.actors[id].record, s.actors[id].outcome, Next(s, Resume(id, Recommit));
            var op := record.request.operationId;
            if s.store[op].revision == record.revision && Storable(outcome) then
              Rewrites(s, s', op) && Settles(s.store[op], s'.store[op], outcome)
            else s'.store == s.store
  {
    var record, outcome := s.actors[id].record, s.actors[id].outcome;
    SettlesOrNot(s, record, outcome);
    assert Next(s, Resume(id, Recommit)) == DoRecommit(s, id, record, outcome, s.actors[id].todo);
  }

  lemma SettlesOrNot(s: State, record: Record, outcome: Outcome)
    requires Sound(s) && Copy(s, record)
    ensures var s', op := Written(s, record.revision, TerminalRecord(record, outcome)), record.request.operationId;
            if s.store[op].revision == record.revision && Storable(outcome) then
              Rewrites(s, s', op) && Settles(s.store[op], s'.store[op], outcome)
            else s'.store == s.store
  {
    if s.store[record.request.operationId] == record {
      TerminalSettles(record, outcome);
    }
    WriteRewrites(s, record, TerminalRecord(record, outcome));
  }

  // ---- every step -----------------------------------------------------------------------------

  /** The outcome that this step tries to put on record. */
  ghost function Tried(s: State, action: Action): Option<Outcome> {
    if !action.Resume? || action.id !in s.actors then None
    else match (action.stretch, s.actors[action.id])
      case (Commit, Committing(_, outcome)) => Some(outcome)
      case (Recommit, Recommitting(_, outcome, _)) => Some(outcome)
      case _ => None
  }

  /** What one step may do to one record. */
  ghost predicate Patched(before: Record, after: Record, tried: Option<Outcome>) {
    || after == before
    || (tried.Some? && Settles(before, after, tried.value) && before.phase != Pending)
    || (tried.None? && before.phase == Pending && exists attemptId, effectKey :: Marks(before, after, attemptId, effectKey))
    || (tried.None? && before.phase == Running && exists ratio :: Progresses(before, after, ratio))
    || (tried.None? && Asks(before, after))
  }

  ghost predicate Patches(s: State, s': State, tried: Option<Outcome>) {
    && (forall op | op in s.store :: op in s'.store && Patched(s.store[op], s'.store[op], tried))
    && (forall op | op in s'.store && op !in s.store :: Initial(s'.store[op]))
    && (forall op | op in s'.store :: Parses(s'.store[op]))
  }

  lemma RewritePatches(s: State, s': State, op: string, tried: Option<Outcome>)
    requires Sound(s) && Rewrites(s, s', op) && Patched(s.store[op], s'.store[op], tried)
    ensures Patches(s, s', tried)
  {
  }

  lemma SettlementPatches(s: State, id: nat, stretch: Stretch)
    requires Sound(s) && id in s.actors && stretch in {Commit, Recommit}
    ensures Patches(s, Next(s, Resume(id, stretch)), Tried(s, Resume(id, stretch)))
  {
    var s', tried := Next(s, Resume(id, stretch)), Tried(s, Resume(id, stretch));
    if s'.store != s.store {
      if stretch == Commit {
        CommitSettles(s, id);
        RewritePatches(s, s', s.actors[id].latest.request.operationId, tried);
      } else {
        RecommitSettles(s, id);
        RewritePatches(s, s', s.actors[id].record.request.operationId, tried);
      }
    }
  }

  lemma RequestPatches(s: State, id: nat, stretch: Stretch)
    requires Sound(s) && id in s.actors && stretch in {Prepare, ReportSwap, CancelSwap}
    ensures Patches(s, Next(s, Resume(id, stretch)), None) && Tried(s, Resume(id, stretch)).None?
  {
    var s', actor := Next(s, Resume(id, stretch)), s.actors[id];
    if s'.store != s.store {
      if stretch == Prepare {
        PrepareMarks(s, id);
        RewritePatches(s, s', actor.current.request.operationId, None);
      } else if stretch == ReportSwap {
        ReportProgresses(s, id);
        RewritePatches(s, s', actor.current.request.operationId, None);
      } else {
        CancelAsks(s, id);
        RewritePatches(s, s', actor.current.request.operationId, None);
      }
    }
  }

  lemma ResumePatches(s: State, id: nat, stretch: Stretch)
    requires Sound(s) && id in s.actors
    ensures Patches(s, Next(s, Resume(id, stretch)), Tried(s, Resume(id, stretch)))
  {
    if stretch in {Commit, Recommit} {
      SettlementPatches(s, id, stretch);
    } else if stretch in {Prepare, ReportSwap, CancelSwap} {
      RequestPatches(s, id, stretch);
    } else {
      OthersOnlyRead(s, id, stretch);
    }
  }

  /** No other stretch writes. */
  lemma OthersOnlyRead(s: State, id: nat, stretch: Stretch)
    requires id in s.actors && stretch !in {Prepare, Commit, Recommit, ReportSwap, CancelSwap}
    ensures Next(s, Resume(id, stretch)).store == s.store && Tried(s, Resume(id, stretch)).None?
  {
  }

  lemma NextPatches(s: State, action: Action)
    requires Sound(s)
    ensures Patches(s, Next(s, action), Tried(s, action))
  {
    match action
    case Resume(id, stretch) => if id in s.actors { ResumePatches(s, id, stretch); }
    case Admit(record, launched) => AdmissionPatches(s, record, launched);
    case _ => assert Next(s, action).store == s.store;
  }

  lemma AdmissionPatches(s: State, record: Record, launched: bool)
    requires Sound(s)
    ensures Patches(s, Next(s, Admit(record, launched)), None)
  {
  }

  lemma NextIsSound(s: State, action: Action)
    requires Sound(s)
    ensures Sound(Next(s, action))
  {
    NextKeeps(s, action);
    NextPatches(s, action);
  }

  lemma {:induction false} RunIsSound(s: State, actions: seq<Action>)
    requires Sound(s)
    ensures Sound(Run(s, actions))
  {
    if actions != [] {
      RunIsSound(s, actions[..|actions| - 1]);
      NextIsSound(Run(s, actions[..|actions| - 1]), actions[|actions| - 1]);
    }
  }

  // ---- what a record tells ----------------------------------------------------------------------

  /** The outcomes a run has put on record for one operation, oldest first. */
  ghost function Outcomes(actions: seq<Action>, op: string): seq<Outcome> {
    if actions == [] then [] else
      var before, action := Run(INIT, actions[..|actions| - 1]), actions[|actions| - 1];
      Outcomes(actions[..|actions| - 1], op) + Settled(before, action, op)
  }

  ghost function Settled(s: State, action: Action, op: string): seq<Outcome> {
    var s' := Next(s, action);
    if op in s.store && op in s'.store && s'.store[op] != s.store[op] && Tried(s, action).Some?
    then [Tried(s, action).value] else []
  }

  function ResultOf(outcomes: seq<Outcome>): Option<string> {
    if outcomes == [] then None
    else match outcomes[|outcomes| - 1]
      case SucceededWith(_, result, _) => Some(result)
      case FailedWith(_, _) => ResultOf(outcomes[..|outcomes| - 1])
  }

  function ArtifactsOf(outcomes: seq<Outcome>): seq<string> {
    if outcomes == [] then []
    else match outcomes[|outcomes| - 1]
      case SucceededWith(_, _, artifacts) => artifacts
      case FailedWith(_, _) => ArtifactsOf(outcomes[..|outcomes| - 1])
  }

  function CodeOf(outcomes: seq<Outcome>): Option<string> {
    if outcomes == [] then None
    else match outcomes[|outcomes| - 1]
      case SucceededWith(_, _, _) => CodeOf(outcomes[..|outcomes| - 1])
      case FailedWith(_, code) => Some(code)
  }

  /** Phase and receipt are those of the last outcome, result and artifacts of the last success, the code is
      that of the last failure. */
  ghost predicate Tells(record: Record, outcomes: seq<Outcome>) {
    && (outcomes == [] <==> record.phase == Pending || record.phase == Running)
    && (outcomes == [] <==> record.receiptId == None)
    && (outcomes != [] ==>
          var last := outcomes[|outcomes| - 1];
          record.phase == (if last.SucceededWith? then Succeeded else Failed) && record.receiptId == Some(last.receiptId))
    && record.result == ResultOf(outcomes) && record.artifacts == ArtifactsOf(outcomes)
    && record.failureCode == CodeOf(outcomes)
    && (record.result.Some? ==> record.progress == Some(1.0))
  }

  lemma PatchTells(before: Record, after: Record, tried: Option<Outcome>, outcomes: seq<Outcome>)
    requires Patched(before, after, tried) && Tells(before, outcomes)
    ensures Tells(after, outcomes + if after != before && tried.Some? then [tried.value] else [])
  {
    if after != before && tried.Some? {
      var more := outcomes + [tried.value];
      assert more[..|more| - 1] == outcomes;
    } else {
      assert outcomes + [] == outcomes;
    }
  }

  /** In every reachable store a record tells exactly what the operation was settled with. */
  lemma {:induction false} RecordTellsOutcomes(actions: seq<Action>, op: string)
    ensures op in Run(INIT, actions).store ==> Tells(Run(INIT, actions).store[op], Outcomes(actions, op))
    ensures op !in Run(INIT, actions).store ==> Outcomes(actions, op) == []
  {
    if actions != [] {
      var before, action := Run(INIT, actions[..|actions| - 1]), actions[|actions| - 1];
      RecordTellsOutcomes(actions[..|actions| - 1], op);
      RunIsSound(INIT, actions[..|actions| - 1]);
      NextPatches(before, action);
      if op in before.store {
        PatchTells(before.store[op], Next(before, action).store[op], Tried(before, action),
                   Outcomes(actions[..|actions| - 1], op));
      }
    }
  }

  lemma {:induction false} TellsWhichKinds(outcomes: seq<Outcome>)
    ensures ResultOf(outcomes).Some? <==> exists outcome :: outcome in outcomes && outcome.SucceededWith?
    ensures CodeOf(outcomes).Some? <==> exists outcome :: outcome in outcomes && outcome.FailedWith?
  {
    if outcomes != [] {
      var init, last := outcomes[..|outcomes| - 1], outcomes[|outcomes| - 1];
      TellsWhichKinds(init);
      assert forall outcome :: outcome in outcomes <==> outcome in init || outcome == last;
    }
  }

  /** That a record holds a result exactly when it succeeded, and a failure code exactly when it failed, is
      true unless its operation was settled both ways. */
  lemma PhaseTellsOutcome(actions: seq<Action>, op: string)
    requires op in Run(INIT, actions).store
    ensures var record, outcomes := Run(INIT, actions).store[op], Outcomes(actions, op);
            (record.phase == Succeeded <==> record.result.Some?)
            && (record.phase == Failed <==> record.failureCode.Some?) <==>
            !((exists outcome :: outcome in outcomes && outcome.SucceededWith?)
              && (exists outcome :: outcome in outcomes && outcome.FailedWith?))
  {
    var outcomes := Outcomes(actions, op);
    RecordTellsOutcomes(actions, op);
    TellsWhichKinds(outcomes);
    if outcomes != [] {
      assert outcomes[|outcomes| - 1] in outcomes;
    }
  }

  // ---- where outcomes come from -------------------------------------------------------------------

  function Carried(actor: Actor): Option<Outcome> {
    match actor
    case Answered(_, outcome) => Some(outcome)
    case Committing(_, outcome) => Some(outcome)
    case Recommitting(_, outcome, _) => Some(outcome)
    case _ => None
  }

  function CarriedBy(s: State, id: nat): Option<Outcome> {
    if id in s.actors then Carried(s.actors[id]) else None
  }

  lemma ReportCarries(s: State, id: nat, worker: nat, current: Record, ratio: real, other: nat)
    ensures CarriedBy(DoReport(s, id, worker, current, ratio), other) == CarriedBy(Stop(s, id), other)
  {
    var after := DoLastWrite(s, id, current, ProgressRecord(current, ratio));
    assert after.actors == Stop(s, id).actors;
  }

  lemma RecoverNextCarries(s: State, id: nat, todo: seq<Record>, other: nat)
    requires Inv(s) && id in s.actors
    ensures other != id ==> CarriedBy(DoRecoverNext(s, id, todo), other) == CarriedBy(s, other)
    ensures CarriedBy(DoRecoverNext(s, id, todo), id).None?
  {
  }

  /** An actor that goes on changes nothing about the outcomes that others carry. */
  lemma OthersCarryOn(s: State, id: nat, stretch: Stretch, other: nat)
    requires Inv(s) && id in s.actors && other != id
    ensures CarriedBy(Next(s, Resume(id, stretch)), other) == CarriedBy(s, other)
  {
    match (stretch, s.actors[id])
    case (ReportSwap, Reporting(worker, current, ratio)) => ReportCarries(s, id, worker, current, ratio, other);
    case (RecoverNext, Recovering(todo)) => RecoverNextCarries(s, id, todo, other);
    case _ =>
  }

  lemma OwnOutcome(s: State, id: nat, stretch: Stretch)
    requires Inv(s) && id in s.actors && CarriedBy(Next(s, Resume(id, stretch)), id).Some?
    ensures var outcome := CarriedBy(Next(s, Resume(id, stretch)), id);
            || CarriedBy(s, id) == outcome || stretch == Answer(outcome.value) || stretch == Reconciled(outcome)
  {
    match (stretch, s.actors[id])
    case (ReportSwap, Reporting(worker, current, ratio)) => ReportCarries(s, id, worker, current, ratio, id);
    case (RecoverNext, Recovering(todo)) => RecoverNextCarries(s, id, todo, id);
    case _ =>
  }

  /** An outcome an actor carries is the one its provider gave it, until it is committed. */
  lemma OutcomesAreAnswers(s: State, action: Action, id: nat)
    requires Inv(s) && CarriedBy(Next(s, action), id).Some?
    ensures var outcome := CarriedBy(Next(s, action), id);
            || CarriedBy(s, id) == outcome
            || action == Resume(id, Answer(outcome.value))
            || action == Resume(id, Reconciled(outcome))
  {
    match action
    case Resume(other, stretch) =>
      if other in s.actors {
        if other == id { OwnOutcome(s, id, stretch); } else { OthersCarryOn(s, other, stretch, id); }
      }
    case _ => SpawnedCarryNothing(s, action, id);
  }

  lemma SpawnedCarryNothing(s: State, action: Action, id: nat)
    requires Inv(s) && !action.Resume? && CarriedBy(Next(s, action), id).Some?
    ensures CarriedBy(Next(s, action), id) == CarriedBy(s, id)
  {
  }
}
