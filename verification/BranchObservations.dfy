// Renaming lifted to the observations of a log: events that a branch keeps as facts and no longer
// replays (branch-observations.ts).
module BranchObservations {
  import opened Prelude
  import opened BranchRenaming
  import opened BranchJson

  /** One constructor per shape of payload. `facts` stands for what no branch touches, the kind of the
      event included; an event of another kind is `Unknown`. */
  datatype Observation =
    | Durability(runId: string, key: Option<string>, encoded: Option<Json>, facts: string)
    | Inert(facts: string)
    | StateSet(value: Json, facts: string)
    | Spilled(reference: string, facts: string)
    | Scheduled(scheduleId: string, facts: string)
    | ChildEvent(child: Option<string>, parent: Option<string>, budget: Option<Json>, input: Option<Json>,
                 resultReference: Option<string>, approvalId: Option<string>, childApprovalId: Option<string>,
                 callId: Option<string>, batchId: Option<string>, facts: string)
    | Rejected(rejectedId: string, rejectedCall: string, facts: string)
    | Unknown(facts: string)

  /** The source itself becomes the branch; every other conversation is defined on the spot. */
  function Conversation(ids: Renaming, source: string, id: string): string {
    if id == source then ids.conversation else ids.Define(ChildKind, id)
  }

  function ConversationIfAny(ids: Renaming, source: string, id: Option<string>): Option<string> {
    if id.Some? then Some(Conversation(ids, source, id.value)) else None
  }

  /** `branchObservation` */
  function BranchObservation(ids: Renaming, source: string, observation: Observation): Result<Observation, Reason> {
    match observation
    case Durability(runId, id, encoded, facts) =>
      if !OpaqueIfAny(encoded) then Failure(OpaquePayload) else
      var run :- ids.Reference(RunKind, runId);
      Success(Durability(run, ids.DefineIfAny(KeyKind, id), encoded, facts))
    case Inert(_) => Success(observation)
    case StateSet(value, _) => if Opaque(value) then Success(observation) else Failure(OpaquePayload)
    case Spilled(reference, facts) =>
      var spill :- ids.Reference(SpillKind, reference);
      Success(Spilled(spill, facts))
    case Scheduled(id, facts) => Success(Scheduled(ids.Define(ScheduleKind, id), facts))
    case ChildEvent(child, parent, budget, input, resultReference, approvalId, childApprovalId, callId, batchId, facts) =>
      if !OpaqueIfAny(budget) || !OpaqueIfAny(input) then Failure(OpaquePayload) else
      var result :- ids.ReferenceIfAny(SpillKind, resultReference);
      var call :- ids.ReferenceIfAny(CallKind, callId);
      Success(ChildEvent(
        ConversationIfAny(ids, source, child), ConversationIfAny(ids, source, parent), budget, input, result,
        ids.DefineIfAny(ApprovalKind, approvalId), ids.DefineIfAny(ApprovalKind, childApprovalId), call,
        ids.DefineIfAny(KeyKind, batchId), facts))
    case Rejected(approvalId, callId, facts) =>
      var approval :- ids.Reference(ApprovalKind, approvalId);
      var call :- ids.Reference(CallKind, callId);
      Success(Rejected(approval, call, facts))
    case Unknown(_) => Failure(OpaquePayload)
  }

  /** What an observation refers to. */
  function ObservationIds(observation: Observation): set<Identity> {
    match observation
    case Durability(runId, _, _, _) => {(RunKind, runId)}
    case Spilled(reference, _) => {(SpillKind, reference)}
    case ChildEvent(_, _, _, _, resultReference, _, _, callId, _, _) =>
      IdIfAny(SpillKind, resultReference) + IdIfAny(CallKind, callId)
    case Rejected(approvalId, callId, _) => {(ApprovalKind, approvalId), (CallKind, callId)}
    case _ => {}
  }

  /** What rewriting it defines and a later event may refer to. Keys, schedules and conversations are
      defined too, but never referred to. */
  function ObservationLearns(observation: Observation): set<Identity> {
    if observation.ChildEvent? then
      IdIfAny(ApprovalKind, observation.approvalId) + IdIfAny(ApprovalKind, observation.childApprovalId)
    else {}
  }

  predicate ObservationAccepted(observation: Observation) {
    match observation
    case Durability(_, _, encoded, _) => OpaqueIfAny(encoded)
    case StateSet(value, _) => Opaque(value)
    case ChildEvent(_, _, budget, input, _, _, _, _, _, _) => OpaqueIfAny(budget) && OpaqueIfAny(input)
    case Unknown(_) => false
    case _ => true
  }

  lemma ImagesOfAny(ids: Renaming, kind: Kind, id: Option<string>)
    ensures ids.Images(IdIfAny(kind, id)) == IdIfAny(kind, ids.DefineIfAny(kind, id))
  {
    if id.Some? {
      ids.ImagesOfOne((kind, id.value));
    }
  }

  /** An observation is rewritten exactly when its kind is known, its opaque payloads hold no runtime
      key and what it refers to is defined; it then refers to and defines exactly the images. */
  lemma ObservationResolves(ids: Renaming, source: string, observation: Observation)
    ensures BranchObservation(ids, source, observation).Success? <==>
              ObservationAccepted(observation) && ObservationIds(observation) <= ids.defined
    ensures BranchObservation(ids, source, observation).Success? ==>
              var after := BranchObservation(ids, source, observation).value;
              ObservationAccepted(after) && ObservationIds(after) == ids.Images(ObservationIds(observation))
              && ObservationLearns(after) == ids.Images(ObservationLearns(observation))
  {
    assert ids.Images({}) == {};
    match observation
    case ChildEvent(_, _, _, _, result, approval, childApproval, call, _, _) =>
      ImagesOfAny(ids, SpillKind, result);
      ImagesOfAny(ids, CallKind, call);
      ImagesOfAny(ids, ApprovalKind, approval);
      ImagesOfAny(ids, ApprovalKind, childApproval);
      ids.ImagesUnion(IdIfAny(SpillKind, result), IdIfAny(CallKind, call));
      ids.ImagesUnion(IdIfAny(ApprovalKind, approval), IdIfAny(ApprovalKind, childApproval));
    case _ =>
  }

  /** No identity that an observation refers to or defines is left in the rewritten one. */
  lemma NoSourceIdentityLeft(ids: Renaming, source: string, observation: Observation)
    requires BranchObservation(ids, source, observation).Success?
    requires MintsAnew(ids, ObservationIds(observation) + ObservationLearns(observation))
    ensures var after := BranchObservation(ids, source, observation).value;
            ObservationIds(after) + ObservationLearns(after) !! ObservationIds(observation) + ObservationLearns(observation)
  {
    ObservationResolves(ids, source, observation);
    ids.ImagesUnion(ObservationIds(observation), ObservationLearns(observation));
  }

  // ---- two branches -----------------------------------------------------------------------------

  /** The second branch takes a conversation for its own source only if the first one did. */
  predicate ConversationSurvives(outer: Renaming, inner: Renaming, source: string, id: Option<string>) {
    id.Some? && id.value != source && inner.Define(ChildKind, id.value) == inner.conversation ==>
      outer.Define(ChildKind, inner.conversation) == outer.conversation
  }

  predicate ConversationsSurvive(outer: Renaming, inner: Renaming, source: string, observation: Observation) {
    observation.ChildEvent? ==>
      && ConversationSurvives(outer, inner, source, observation.child)
      && ConversationSurvives(outer, inner, source, observation.parent)
  }

  lemma ConversationCompose(outer: Renaming, inner: Renaming, source: string, id: Option<string>)
    ensures var twice := ConversationIfAny(outer, inner.conversation, ConversationIfAny(inner, source, id));
            twice == ConversationIfAny(Compose(outer, inner), source, id) <==> ConversationSurvives(outer, inner, source, id)
  {
  }

  lemma DefineIfAnyCompose(outer: Renaming, inner: Renaming, kind: Kind, id: Option<string>)
    ensures outer.DefineIfAny(kind, inner.DefineIfAny(kind, id)) == Compose(outer, inner).DefineIfAny(kind, id)
  {
  }

  lemma ChildEventCompose(outer: Renaming, inner: Renaming, source: string, observation: Observation)
    requires observation.ChildEvent? && BranchObservation(inner, source, observation).Success?
    ensures var twice := BranchObservation(outer, inner.conversation, BranchObservation(inner, source, observation).value);
            var direct := BranchObservation(Compose(outer, inner), source, observation);
            twice.Success? == direct.Success?
            && (twice.Success? ==> (twice.value == direct.value <==> ConversationsSurvive(outer, inner, source, observation)))
  {
    ConversationCompose(outer, inner, source, observation.child);
    ConversationCompose(outer, inner, source, observation.parent);
    ReferenceIfAnyCompose(outer, inner, SpillKind, observation.resultReference);
    ReferenceIfAnyCompose(outer, inner, CallKind, observation.callId);
    DefineIfAnyCompose(outer, inner, ApprovalKind, observation.approvalId);
    DefineIfAnyCompose(outer, inner, ApprovalKind, observation.childApprovalId);
    DefineIfAnyCompose(outer, inner, KeyKind, observation.batchId);
  }

  /** Rewriting an observation twice succeeds exactly when rewriting it once by the composition does,
      and gives the same exactly when no other conversation is taken for the branch in between. */
  lemma ObservationCompose(outer: Renaming, inner: Renaming, source: string, observation: Observation)
    requires BranchObservation(inner, source, observation).Success?
    ensures var twice := BranchObservation(outer, inner.conversation, BranchObservation(inner, source, observation).value);
            var direct := BranchObservation(Compose(outer, inner), source, observation);
            twice.Success? == direct.Success?
            && (twice.Success? ==> (twice.value == direct.value <==> ConversationsSurvive(outer, inner, source, observation)))
  {
    if observation.ChildEvent? {
      ChildEventCompose(outer, inner, source, observation);
    }
  }
}
