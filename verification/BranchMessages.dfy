// Structural renaming of messages and runs (branch-messages.ts). For each level there is
// the rewriting itself, the identities a value mentions, what it must satisfy besides
// identities, and the value with its identities blanked.
module BranchMessages {
  import opened Prelude
  import opened BranchRenaming
  import opened BranchJson

  datatype Envelope = Envelope(schemaVersion: int, provider: string, data: Json)

  datatype ToolOutcome = ToolSuccess | ToolError | ToolInterrupted

  datatype Part =
    | TextPart(text: string)
    | ReasoningPart(text: string, provider: Option<Envelope>)
    | FilePart(mediaType: string, reference: string, filename: Option<string>)
    | SourcePart(sourceId: string, url: Option<string>, title: Option<string>)
    | ToolCallPart(callId: string, toolName: string, input: Json, provider: Option<Envelope>)
    | ToolResultPart(callId: string, toolName: string, outcome: ToolOutcome, output: Option<Json>)
    | ApprovalRequestPart(approvalId: string, callId: string, isAutomatic: Option<bool>, signature: Option<string>)
    | ApprovalResponsePart(approvalId: string, approved: bool, reason: Option<string>)
    | ProviderPart(envelope: Envelope)
    | ControlPart(control: string)

  /** `facts` stands for role, status, schema version and timestamps, which no branch touches. */
  datatype Message = Message(
    id: string,
    conversationId: string,
    runId: Option<string>,
    parts: seq<Part>,
    metadata: Option<Json>,
    facts: string)

  datatype RunOperation = RunOperation(operationId: string, facts: string)

  datatype Run = Run(
    id: string,
    conversationId: string,
    inputMessageIds: seq<string>,
    assistantMessageId: string,
    absorbedIntoRunId: Option<string>,
    lastOperation: Option<RunOperation>,
    ownerId: Option<string>,
    fencingToken: Option<nat>,
    facts: string)

  // ---- parts ------------------------------------------------------------------------

  predicate EnvelopeOpaque(provider: Option<Envelope>) {
    provider.Some? ==> Opaque(provider.value.data)
  }

  /** `branchPart` */
  function BranchPart(ids: Renaming, part: Part): Result<Part, Reason> {
    match part
    case FilePart(mediaType, reference, filename) =>
      var target :- ids.Reference(SpillKind, reference);
      Success(FilePart(mediaType, target, filename))
    case ToolCallPart(callId, toolName, input, provider) =>
      if !EnvelopeOpaque(provider) then Failure(OpaquePayload) else
      var call :- ids.Reference(CallKind, callId);
      var payload :- BranchToolJson(ids, toolName, input, false);
      Success(ToolCallPart(call, toolName, payload, provider))
    case ToolResultPart(callId, toolName, outcome, output) =>
      var call :- ids.Reference(CallKind, callId);
      var payload :- BranchToolOutput(ids, toolName, outcome, output);
      Success(ToolResultPart(call, toolName, outcome, payload))
    case ApprovalRequestPart(approvalId, callId, _, _) =>
      var approval :- ids.Reference(ApprovalKind, approvalId);
      var call :- ids.Reference(CallKind, callId);
      Success(ApprovalRequestPart(approval, call, None, None))
    case ApprovalResponsePart(approvalId, approved, reason) =>
      var approval :- ids.Reference(ApprovalKind, approvalId);
      Success(ApprovalResponsePart(approval, approved, reason))
    case ProviderPart(_) => Failure(OpaqueProviderPart)
    case ReasoningPart(_, provider) =>
      if EnvelopeOpaque(provider) then Success(part) else Failure(OpaquePayload)
    case _ => Success(part)
  }

  function BranchToolOutput(ids: Renaming, toolName: string, outcome: ToolOutcome, output: Option<Json>)
    : Result<Option<Json>, Reason>
  {
    match output
    case None => Success(None)
    case Some(value) =>
      if outcome.ToolSuccess? then
        var payload :- BranchToolJson(ids, toolName, value, true);
        Success(Some(payload))
      else if Opaque(value) then Success(output)
      else Failure(OpaquePayload)
  }

  function PartIds(part: Part): set<Identity> {
    match part
    case FilePart(_, reference, _) => {(SpillKind, reference)}
    case ToolCallPart(callId, toolName, input, _) => {(CallKind, callId)} + ToolJsonIds(toolName, input, false)
    case ToolResultPart(callId, toolName, outcome, output) =>
      {(CallKind, callId)} +
      (if outcome.ToolSuccess? && output.Some? then ToolJsonIds(toolName, output.value, true) else {})
    case ApprovalRequestPart(approvalId, callId, _, _) => {(ApprovalKind, approvalId), (CallKind, callId)}
    case ApprovalResponsePart(approvalId, _, _) => {(ApprovalKind, approvalId)}
    case _ => {}
  }

  predicate PartAccepted(part: Part) {
    match part
    case ToolCallPart(_, toolName, input, provider) =>
      EnvelopeOpaque(provider) && ToolJsonAccepted(toolName, input, false)
    case ToolResultPart(_, toolName, outcome, output) =>
      output.Some? ==>
        if outcome.ToolSuccess? then ToolJsonAccepted(toolName, output.value, true) else Opaque(output.value)
    case ProviderPart(_) => false
    case ReasoningPart(_, provider) => EnvelopeOpaque(provider)
    case _ => true
  }

  function BlankToolJson(toolName: string, value: Json, output: bool): Json {
    var shape := ShapeOf(toolName, output);
    if Parses(shape, value) && SpillOf(shape, value).Some? then WithSpill(shape, value, "") else value
  }

  /** The part with every identity blanked: what is left is its content. */
  function BlankPart(part: Part): Part {
    match part
    case FilePart(mediaType, _, filename) => FilePart(mediaType, "", filename)
    case ToolCallPart(_, toolName, input, provider) =>
      ToolCallPart("", toolName, BlankToolJson(toolName, input, false), provider)
    case ToolResultPart(_, toolName, outcome, output) =>
      var blank := if outcome.ToolSuccess? && output.Some?
                   then Some(BlankToolJson(toolName, output.value, true)) else output;
      ToolResultPart("", toolName, outcome, blank)
    case ApprovalRequestPart(_, _, isAutomatic, signature) => ApprovalRequestPart("", "", isAutomatic, signature)
    case ApprovalResponsePart(_, approved, reason) => ApprovalResponsePart("", approved, reason)
    case _ => part
  }

  /** The one part whose rewriting rebuilds it from two fields and so drops the others. */
  predicate DropsFields(part: Part) {
    part.ApprovalRequestPart? && (part.isAutomatic.Some? || part.signature.Some?)
  }

  lemma PartResolves(ids: Renaming, part: Part)
    ensures BranchPart(ids, part).Success? <==> PartAccepted(part) && PartIds(part) <= ids.defined
    ensures BranchPart(ids, part).Success? ==>
              var after := BranchPart(ids, part).value;
              PartAccepted(after) && PartIds(after) == ids.Images(PartIds(part))
  {
    match part
    case ToolCallPart(_, toolName, input, _) => ToolJsonResolves(ids, toolName, input, false);
    case ToolResultPart(_, toolName, outcome, output) =>
      if outcome.ToolSuccess? && output.Some? {
        ToolJsonResolves(ids, toolName, output.value, true);
      }
    case _ =>
  }

  lemma PartCompose(outer: Renaming, inner: Renaming, part: Part)
    requires BranchPart(inner, part).Success?
    ensures Agree(BranchPart(outer, BranchPart(inner, part).value), BranchPart(Compose(outer, inner), part))
  {
    match part
    case ToolCallPart(_, toolName, input, _) => ToolJsonCompose(outer, inner, toolName, input, false);
    case ToolResultPart(_, toolName, outcome, output) =>
      if outcome.ToolSuccess? && output.Some? {
        ToolJsonCompose(outer, inner, toolName, output.value, true);
      }
    case _ =>
  }

  lemma BlankToolJsonKept(ids: Renaming, tool: string, value: Json, output: bool)
    requires BranchToolJson(ids, tool, value, output).Success?
    ensures BlankToolJson(tool, BranchToolJson(ids, tool, value, output).value, output) ==
              BlankToolJson(tool, value, output)
  {
    var shape := ShapeOf(tool, output);
    if !shape.Application? && SpillOf(shape, value).Some? {
      var target := ids.mint(SpillKind, SpillOf(shape, value).value);
      WithSpillParses(shape, value, target);
      var left, right := WithSpill(shape, WithSpill(shape, value, target), ""), WithSpill(shape, value, "");
      if shape.ShellResult? {
        assert left.fields["artifact"].fields == right.fields["artifact"].fields;
      }
      assert left.fields == right.fields;
    }
  }

  lemma PartContentKept(ids: Renaming, part: Part)
    requires BranchPart(ids, part).Success?
    ensures BlankPart(BranchPart(ids, part).value) == BlankPart(part) <==> !DropsFields(part)
  {
    match part
    case ToolCallPart(_, toolName, input, _) => BlankToolJsonKept(ids, toolName, input, false);
    case ToolResultPart(_, toolName, outcome, output) =>
      if outcome.ToolSuccess? && output.Some? {
        BlankToolJsonKept(ids, toolName, output.value, true);
      }
    case _ =>
  }

  // ---- messages ---------------------------------------------------------------------

  function Parts(ids: Renaming): Part -> Result<Part, Reason> {
    part => BranchPart(ids, part)
  }

  /** `branchMessage` */
  function BranchMessage(ids: Renaming, source: string, message: Message): Result<Message, Reason> {
    if message.conversationId != source then Failure(ForeignConversation) else
    var id :- ids.Reference(MessageKind, message.id);
    var runId :- ids.ReferenceIfAny(RunKind, message.runId);
    var parts :- Traverse(Parts(ids), message.parts);
    if !OpaqueIfAny(message.metadata) then Failure(OpaquePayload) else
    Success(Message(id, ids.conversation, runId, parts, message.metadata, message.facts))
  }

  ghost function MessageIds(message: Message): set<Identity> {
    {(MessageKind, message.id)} + IdIfAny(RunKind, message.runId) + AllIds(PartIds, message.parts)
  }

  predicate MessageAccepted(message: Message) {
    OpaqueIfAny(message.metadata) && forall part | part in message.parts :: PartAccepted(part)
  }

  function BlankMessage(message: Message): Message {
    Message("", "", if message.runId.Some? then Some("") else None,
            seq(|message.parts|, i requires 0 <= i < |message.parts| => BlankPart(message.parts[i])),
            message.metadata, message.facts)
  }

  /** A message is rewritten exactly when it is this conversation's, its opaque payloads hold no
      runtime key, and every identity in it was collected; then exactly the images appear. */
  lemma MessageResolves(ids: Renaming, source: string, message: Message)
    ensures BranchMessage(ids, source, message).Success? <==>
              message.conversationId == source && MessageAccepted(message) && MessageIds(message) <= ids.defined
    ensures BranchMessage(ids, source, message).Success? ==>
              var after := BranchMessage(ids, source, message).value;
              after.conversationId == ids.conversation && MessageAccepted(after)
              && MessageIds(after) == ids.Images(MessageIds(message))
  {
    forall part { PartResolves(ids, part); }
    TraverseResolves(ids, Parts(ids), PartIds, PartAccepted, PartAccepted, message.parts);
  }

  lemma MessageCompose(outer: Renaming, inner: Renaming, source: string, message: Message)
    requires BranchMessage(inner, source, message).Success?
    ensures Agree(BranchMessage(outer, inner.conversation, BranchMessage(inner, source, message).value),
                  BranchMessage(Compose(outer, inner), source, message))
  {
    var once := BranchMessage(inner, source, message).value;
    assert once.id == inner.mint(MessageKind, message.id) && once.conversationId == inner.conversation;
    assert once.runId == inner.ReferenceIfAny(RunKind, message.runId).value;
    assert once.parts == Traverse(Parts(inner), message.parts).value && once.metadata == message.metadata;
    ReferenceIfAnyCompose(outer, inner, RunKind, message.runId);
    PartsCompose(outer, inner, message.parts);
  }

  lemma PartsCompose(outer: Renaming, inner: Renaming, parts: seq<Part>)
    requires Traverse(Parts(inner), parts).Success?
    ensures Agree(Traverse(Parts(outer), Traverse(Parts(inner), parts).value), Traverse(Parts(Compose(outer, inner)), parts))
  {
    forall part | BranchPart(inner, part).Success?
      ensures Agree(Parts(outer)(BranchPart(inner, part).value), Parts(Compose(outer, inner))(part))
    {
      PartCompose(outer, inner, part);
    }
    TraverseCompose(Parts(inner), Parts(outer), Parts(Compose(outer, inner)), parts);
  }

  /** Nothing but identities changes, unless an approval request carries a flag or a signature. */
  lemma MessageContentKept(ids: Renaming, source: string, message: Message)
    requires BranchMessage(ids, source, message).Success?
    ensures BlankMessage(BranchMessage(ids, source, message).value) == BlankMessage(message) <==>
              forall part | part in message.parts :: !DropsFields(part)
  {
    var after := BranchMessage(ids, source, message).value;
    forall i | 0 <= i < |message.parts|
      ensures BlankPart(after.parts[i]) == BlankPart(message.parts[i]) <==> !DropsFields(message.parts[i])
    {
      PartContentKept(ids, message.parts[i]);
    }
    if forall part | part in message.parts :: !DropsFields(part) {
      assert BlankMessage(after).parts == BlankMessage(message).parts;
    } else {
      var i :| 0 <= i < |message.parts| && DropsFields(message.parts[i]);
      assert BlankMessage(after).parts[i] != BlankMessage(message).parts[i];
    }
  }

  /** When minted identities are new, no source identity survives outside opaque JSON. */
  lemma NoSourceIdentityLeft(ids: Renaming, source: string, message: Message)
    requires BranchMessage(ids, source, message).Success?
    requires forall identity | identity in ids.defined :: ids.Image(identity) !in ids.defined
    ensures MessageIds(BranchMessage(ids, source, message).value) !! MessageIds(message)
  {
    MessageResolves(ids, source, message);
  }

  // ---- runs -------------------------------------------------------------------------

  function BranchRunOperation(ids: Renaming, operation: Option<RunOperation>): Result<Option<RunOperation>, Reason> {
    match operation
    case None => Success(None)
    case Some(value) =>
      var id :- ids.Reference(OperationKind, value.operationId);
      Success(Some(value.(operationId := id)))
  }

  /** `branchRun`: a settled branch forgets who owned the run. */
  function BranchRun(ids: Renaming, source: string, run: Run, settled: bool): Result<Run, Reason> {
    if run.conversationId != source then Failure(ForeignConversation) else
    var id :- ids.Reference(RunKind, run.id);
    var inputs :- ids.References(MessageKind, run.inputMessageIds);
    var assistant :- ids.Reference(MessageKind, run.assistantMessageId);
    var absorbed :- ids.ReferenceIfAny(RunKind, run.absorbedIntoRunId);
    var operation :- BranchRunOperation(ids, run.lastOperation);
    Success(run.(
      id := id,
      conversationId := ids.conversation,
      inputMessageIds := inputs,
      assistantMessageId := assistant,
      absorbedIntoRunId := absorbed,
      lastOperation := operation,
      ownerId := if settled then None else ids.DefineIfAny(OwnerKind, run.ownerId),
      fencingToken := if settled then None else run.fencingToken))
  }

  function RunIds(run: Run): set<Identity> {
    {(RunKind, run.id), (MessageKind, run.assistantMessageId)}
    + Ids(MessageKind, run.inputMessageIds)
    + IdIfAny(RunKind, run.absorbedIntoRunId)
    + (if run.lastOperation.Some? then {(OperationKind, run.lastOperation.value.operationId)} else {})
  }

  function BlankRun(run: Run): Run {
    run.(
      id := "", conversationId := "", assistantMessageId := "",
      inputMessageIds := seq(|run.inputMessageIds|, _ => ""),
      absorbedIntoRunId := if run.absorbedIntoRunId.Some? then Some("") else None,
      lastOperation := if run.lastOperation.Some? then Some(run.lastOperation.value.(operationId := "")) else None,
      ownerId := if run.ownerId.Some? then Some("") else None)
  }

  lemma RunResolves(ids: Renaming, source: string, run: Run, settled: bool)
    ensures BranchRun(ids, source, run, settled).Success? <==>
              run.conversationId == source && RunIds(run) <= ids.defined
    ensures BranchRun(ids, source, run, settled).Success? ==>
              var after := BranchRun(ids, source, run, settled).value;
              after.conversationId == ids.conversation && RunIds(after) == ids.Images(RunIds(run))
  {
    ReferencesResolve(ids, MessageKind, run.inputMessageIds);
  }

  lemma RunCompose(outer: Renaming, inner: Renaming, source: string, run: Run, settled: bool)
    requires BranchRun(inner, source, run, settled).Success?
    ensures Agree(BranchRun(outer, inner.conversation, BranchRun(inner, source, run, settled).value, settled),
                  BranchRun(Compose(outer, inner), source, run, settled))
  {
    ReferencesCompose(outer, inner, MessageKind, run.inputMessageIds);
  }

  /** A run keeps everything but its identities, except that settling drops its ownership. */
  lemma RunContentKept(ids: Renaming, source: string, run: Run, settled: bool)
    requires BranchRun(ids, source, run, settled).Success?
    ensures BlankRun(BranchRun(ids, source, run, settled).value) == BlankRun(run) <==>
              !settled || (run.ownerId.None? && run.fencingToken.None?)
  {
    var after := BranchRun(ids, source, run, settled).value;
    assert BlankRun(after).inputMessageIds == BlankRun(run).inputMessageIds;
  }

  // ---- what a message or a run defines ----------------------------------------------

  function PartDefinitions(part: Part): set<Identity> {
    match part
    case ToolCallPart(callId, _, _, _) => {(CallKind, callId)}
    case ApprovalRequestPart(approvalId, _, _, _) => {(ApprovalKind, approvalId)}
    case _ => {}
  }

  /** `collectMessage` */
  ghost function MessageDefinitions(message: Message): set<Identity> {
    {(MessageKind, message.id)} + AllIds(PartDefinitions, message.parts)
  }

  /** `collectRun` */
  function RunDefinitions(run: Run): set<Identity> {
    {(RunKind, run.id), (MessageKind, run.assistantMessageId)}
    + (if run.lastOperation.Some? then {(OperationKind, run.lastOperation.value.operationId)} else {})
  }

  lemma MessageDefinitionsRenamed(ids: Renaming, source: string, message: Message)
    requires BranchMessage(ids, source, message).Success?
    ensures MessageDefinitions(BranchMessage(ids, source, message).value) == ids.Images(MessageDefinitions(message))
  {
    var after := BranchMessage(ids, source, message).value;
    var parts := Traverse(Parts(ids), message.parts).value;
    assert after.parts == parts;
    assert AllIds(PartDefinitions, parts) == ids.Images(AllIds(PartDefinitions, message.parts)) by {
      forall part | BranchPart(ids, part).Success?
        ensures PartDefinitions(BranchPart(ids, part).value) == ids.Images(PartDefinitions(part))
      {
        PartDefinitionsRenamed(ids, part);
      }
      TraverseImages(ids, Parts(ids), PartDefinitions, message.parts);
    }
    ids.ImagesUnion({(MessageKind, message.id)}, AllIds(PartDefinitions, message.parts));
  }

  lemma PartDefinitionsRenamed(ids: Renaming, part: Part)
    requires BranchPart(ids, part).Success?
    ensures PartDefinitions(BranchPart(ids, part).value) == ids.Images(PartDefinitions(part))
  {
    assert ids.Images({}) == {};
    if part.ToolCallPart? {
      ids.ImagesOfOne((CallKind, part.callId));
    } else if part.ApprovalRequestPart? {
      ids.ImagesOfOne((ApprovalKind, part.approvalId));
    }
  }
}
