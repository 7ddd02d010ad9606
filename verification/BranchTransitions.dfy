// Renaming lifted to every store operation (branch-transitions.ts), and what an operation
// defines for the rest of the log (branch-identities.ts, collectOperation).
module BranchTransitions {
  import opened Prelude
  import opened BranchRenaming
  import opened BranchMessages

  datatype Absorption = Absorption(runId: string, inputMessageIds: seq<string>)

  /** `facts` stands for revisions, tokens, usage, reasons and flags, which no branch touches. */
  datatype Operation =
    | Accept(idempotencyKey: string, input: Message, run: Run, coalesceIntoRunId: Option<string>, facts: string)
    | Acquire(conversationId: string, runId: string, ownerId: string, facts: string)
    | Checkpoint(conversationId: string, runId: string, ownerId: string, assistant: Message, facts: string)
    | RecordOperation(conversationId: string, runId: string, ownerId: string, operation: RunOperation, facts: string)
    | Interrupt(conversationId: string, runId: string, facts: string)
    | Recover(conversationId: string, runId: string, abandons: bool, recovered: Option<Message>, facts: string)
    | Terminal(conversationId: string, runId: string, ownerId: string, assistant: Message,
               absorb: Option<seq<Absorption>>, facts: string)
    | Compact(conversationId: string, replacedMessageIds: seq<string>, summary: Message, facts: string)
    | Seed(conversationId: string, seedKey: string, inputs: seq<Message>, facts: string)

  function Messages(ids: Renaming, source: string): Message -> Result<Message, Reason> {
    message => BranchMessage(ids, source, message)
  }

  function MessageIfAny(ids: Renaming, source: string, message: Option<Message>): Result<Option<Message>, Reason> {
    match message
    case None => Success(None)
    case Some(value) => var target :- BranchMessage(ids, source, value); Success(Some(target))
  }

  function BranchAbsorption(ids: Renaming, entry: Absorption): Result<Absorption, Reason> {
    var runId :- ids.Reference(RunKind, entry.runId);
    var inputs :- ids.References(MessageKind, entry.inputMessageIds);
    Success(Absorption(runId, inputs))
  }

  function Absorptions(ids: Renaming): Absorption -> Result<Absorption, Reason> {
    entry => BranchAbsorption(ids, entry)
  }

  function AbsorbIfAny(ids: Renaming, absorb: Option<seq<Absorption>>): Result<Option<seq<Absorption>>, Reason> {
    match absorb
    case None => Success(None)
    case Some(entries) => var targets :- Traverse(Absorptions(ids), entries); Success(Some(targets))
  }

  /** `rekeyBranchTransition` */
  function RekeyTransition(ids: Renaming, source: string, operation: Operation): Result<Operation, Reason> {
    match operation
    case Accept(key, input, run, coalesce, facts) =>
      var input' :- BranchMessage(ids, source, input);
      var run' :- BranchRun(ids, source, run, false);
      var coalesce' :- ids.ReferenceIfAny(RunKind, coalesce);
      Success(Accept(ids.Define(KeyKind, key), input', run', coalesce', facts))
    case Seed(_, key, inputs, facts) =>
      var inputs' :- Traverse(Messages(ids, source), inputs);
      Success(Seed(ids.conversation, ids.Define(KeyKind, key), inputs', facts))
    case Compact(_, replaced, summary, facts) =>
      var replaced' :- ids.References(MessageKind, replaced);
      var summary' :- BranchMessage(ids, source, summary);
      Success(Compact(ids.conversation, replaced', summary', facts))
    case Acquire(_, runId, ownerId, facts) =>
      var runId' :- ids.Reference(RunKind, runId);
      Success(Acquire(ids.conversation, runId', ids.Define(OwnerKind, ownerId), facts))
    case Interrupt(_, runId, facts) =>
      var runId' :- ids.Reference(RunKind, runId);
      Success(Interrupt(ids.conversation, runId', facts))
    case Checkpoint(_, runId, ownerId, assistant, facts) =>
      var runId' :- ids.Reference(RunKind, runId);
      var assistant' :- BranchMessage(ids, source, assistant);
      Success(Checkpoint(ids.conversation, runId', ids.Define(OwnerKind, ownerId), assistant', facts))
    case RecordOperation(_, runId, ownerId, recorded, facts) =>
      var runId' :- ids.Reference(RunKind, runId);
      var id :- ids.Reference(OperationKind, recorded.operationId);
      Success(RecordOperation(ids.conversation, runId', ids.Define(OwnerKind, ownerId),
                              recorded.(operationId := id), facts))
    case Recover(_, runId, abandons, recovered, facts) =>
      var runId' :- ids.Reference(RunKind, runId);
      var recovered' :- MessageIfAny(ids, source, recovered);
      Success(Recover(ids.conversation, runId', abandons, recovered', facts))
    case Terminal(_, runId, ownerId, assistant, absorb, facts) =>
      var runId' :- ids.Reference(RunKind, runId);
      var assistant' :- BranchMessage(ids, source, assistant);
      var absorb' :- AbsorbIfAny(ids, absorb);
      Success(Terminal(ids.conversation, runId', ids.Define(OwnerKind, ownerId), assistant', absorb', facts))
  }

  // ---- identities an operation mentions, and what it must satisfy --------------------

  ghost function AbsorptionIds(entry: Absorption): set<Identity> {
    {(RunKind, entry.runId)} + Ids(MessageKind, entry.inputMessageIds)
  }

  ghost function AbsorbedIds(absorb: Option<seq<Absorption>>): set<Identity> {
    if absorb.Some? then AllIds(AbsorptionIds, absorb.value) else {}
  }

  ghost function OperationIds(operation: Operation): set<Identity> {
    match operation
    case Accept(_, input, run, coalesce, _) => MessageIds(input) + RunIds(run) + IdIfAny(RunKind, coalesce)
    case Seed(_, _, inputs, _) => AllIds(MessageIds, inputs)
    case Compact(_, replaced, summary, _) => Ids(MessageKind, replaced) + MessageIds(summary)
    case Acquire(_, runId, _, _) => {(RunKind, runId)}
    case Interrupt(_, runId, _) => {(RunKind, runId)}
    case Checkpoint(_, runId, _, assistant, _) => {(RunKind, runId)} + MessageIds(assistant)
    case RecordOperation(_, runId, _, recorded, _) => {(RunKind, runId), (OperationKind, recorded.operationId)}
    case Recover(_, runId, _, recovered, _) =>
      {(RunKind, runId)} + (if recovered.Some? then MessageIds(recovered.value) else {})
    case Terminal(_, runId, _, assistant, absorb, _) =>
      {(RunKind, runId)} + MessageIds(assistant) + AbsorbedIds(absorb)
  }

  predicate MessageOf(source: string, message: Message) {
    message.conversationId == source && MessageAccepted(message)
  }

  function MessagesOf(source: string): Message -> bool {
    message => MessageOf(source, message)
  }

  predicate OperationAccepted(source: string, operation: Operation) {
    match operation
    case Accept(_, input, run, _, _) => MessageOf(source, input) && run.conversationId == source
    case Seed(_, _, inputs, _) => forall message | message in inputs :: MessagesOf(source)(message)
    case Compact(_, _, summary, _) => MessageOf(source, summary)
    case Checkpoint(_, _, _, assistant, _) => MessageOf(source, assistant)
    case Recover(_, _, _, recovered, _) => recovered.Some? ==> MessageOf(source, recovered.value)
    case Terminal(_, _, _, assistant, _, _) => MessageOf(source, assistant)
    case _ => true
  }

  lemma AbsorptionResolves(ids: Renaming, entry: Absorption)
    ensures BranchAbsorption(ids, entry).Success? <==> AbsorptionIds(entry) <= ids.defined
    ensures BranchAbsorption(ids, entry).Success? ==>
              AbsorptionIds(BranchAbsorption(ids, entry).value) == ids.Images(AbsorptionIds(entry))
  {
    ReferencesResolve(ids, MessageKind, entry.inputMessageIds);
  }

  lemma AbsorbResolves(ids: Renaming, entries: seq<Absorption>)
    ensures Traverse(Absorptions(ids), entries).Success? <==> AllIds(AbsorptionIds, entries) <= ids.defined
    ensures Traverse(Absorptions(ids), entries).Success? ==>
              AllIds(AbsorptionIds, Traverse(Absorptions(ids), entries).value)
                == ids.Images(AllIds(AbsorptionIds, entries))
  {
    forall entry { AbsorptionResolves(ids, entry); }
    TraverseResolves(ids, Absorptions(ids), AbsorptionIds, _ => true, _ => true, entries);
  }

  lemma MessagesResolve(ids: Renaming, source: string, messages: seq<Message>)
    ensures Traverse(Messages(ids, source), messages).Success? <==>
              (forall message | message in messages :: MessagesOf(source)(message))
              && AllIds(MessageIds, messages) <= ids.defined
    ensures Traverse(Messages(ids, source), messages).Success? ==>
              var after := Traverse(Messages(ids, source), messages).value;
              (forall message | message in after :: MessagesOf(ids.conversation)(message))
              && AllIds(MessageIds, after) == ids.Images(AllIds(MessageIds, messages))
  {
    forall message
      ensures BranchMessage(ids, source, message).Success? <==>
                MessageOf(source, message) && MessageIds(message) <= ids.defined
      ensures BranchMessage(ids, source, message).Success? ==>
                MessageOf(ids.conversation, BranchMessage(ids, source, message).value)
                && MessageIds(BranchMessage(ids, source, message).value) == ids.Images(MessageIds(message))
    {
      MessageResolves(ids, source, message);
    }
    TraverseResolves(ids, Messages(ids, source), MessageIds, MessagesOf(source), MessagesOf(ids.conversation), messages);
  }

  ghost predicate Resolves(ids: Renaming, source: string, operation: Operation) {
    var after := RekeyTransition(ids, source, operation);
    && (after.Success? <==> OperationAccepted(source, operation) && OperationIds(operation) <= ids.defined)
    && (after.Success? ==>
          OperationAccepted(ids.conversation, after.value)
          && OperationIds(after.value) == ids.Images(OperationIds(operation)))
  }

  lemma AcceptResolves(ids: Renaming, source: string, operation: Operation)
    requires operation.Accept?
    ensures Resolves(ids, source, operation)
  {
    var input, run, coalesce := operation.input, operation.run, operation.coalesceIntoRunId;
    MessageResolves(ids, source, input);
    RunResolves(ids, source, run, false);
    AcceptImages(ids, MessageIds(input), RunIds(run), coalesce);
  }

  lemma AcceptImages(ids: Renaming, input: set<Identity>, run: set<Identity>, coalesce: Option<string>)
    ensures ids.Images(input + run + IdIfAny(RunKind, coalesce))
         == ids.Images(input) + ids.Images(run) + IdIfAny(RunKind, ids.DefineIfAny(RunKind, coalesce))
  {
    ids.ImagesUnion(input + run, IdIfAny(RunKind, coalesce));
    ids.ImagesUnion(input, run);
    if coalesce.Some? {
      ids.ImagesOfOne((RunKind, coalesce.value));
    }
  }

  lemma AbsorbIfAnyResolves(ids: Renaming, absorb: Option<seq<Absorption>>)
    ensures AbsorbIfAny(ids, absorb).Success? <==> AbsorbedIds(absorb) <= ids.defined
    ensures AbsorbIfAny(ids, absorb).Success? ==>
              AbsorbedIds(AbsorbIfAny(ids, absorb).value) == ids.Images(AbsorbedIds(absorb))
  {
    if absorb.Some? {
      AbsorbResolves(ids, absorb.value);
    }
  }

  lemma TerminalImages(ids: Renaming, runId: string, message: set<Identity>, absorbed: set<Identity>)
    ensures ids.Images({(RunKind, runId)} + message + absorbed)
         == {(RunKind, ids.mint(RunKind, runId))} + ids.Images(message) + ids.Images(absorbed)
  {
    ids.ImagesUnion({(RunKind, runId)} + message, absorbed);
    ids.ImagesUnion({(RunKind, runId)}, message);
    ids.ImagesOfOne((RunKind, runId));
  }

  lemma TerminalRekeyed(ids: Renaming, source: string, operation: Operation)
    requires operation.Terminal?
    ensures RekeyTransition(ids, source, operation).Success? <==>
              && (RunKind, operation.runId) in ids.defined
              && BranchMessage(ids, source, operation.assistant).Success?
              && AbsorbIfAny(ids, operation.absorb).Success?
    ensures RekeyTransition(ids, source, operation).Success? ==>
              var after := RekeyTransition(ids, source, operation).value;
              && after.Terminal? && after.runId == ids.mint(RunKind, operation.runId)
              && BranchMessage(ids, source, operation.assistant) == Success(after.assistant)
              && AbsorbIfAny(ids, operation.absorb) == Success(after.absorb)
  {
  }

  lemma TerminalResolves(ids: Renaming, source: string, operation: Operation)
    requires operation.Terminal?
    ensures Resolves(ids, source, operation)
  {
    TerminalRekeyed(ids, source, operation);
    MessageResolves(ids, source, operation.assistant);
    AbsorbIfAnyResolves(ids, operation.absorb);
    TerminalImages(ids, operation.runId, MessageIds(operation.assistant), AbsorbedIds(operation.absorb));
    assert OperationIds(operation) ==
      {(RunKind, operation.runId)} + MessageIds(operation.assistant) + AbsorbedIds(operation.absorb);
    var result := RekeyTransition(ids, source, operation);
    if result.Success? {
      assert OperationIds(result.value) ==
        {(RunKind, result.value.runId)} + MessageIds(result.value.assistant) + AbsorbedIds(result.value.absorb);
    }
  }

  lemma MessageCarryingResolves(ids: Renaming, source: string, operation: Operation)
    requires operation.Checkpoint? || operation.Recover? || operation.Compact?
    ensures Resolves(ids, source, operation)
  {
    match operation
    case Checkpoint(_, runId, _, assistant, _) =>
      MessageResolves(ids, source, assistant);
      ids.ImagesUnion({(RunKind, runId)}, MessageIds(assistant));
    case Recover(_, runId, _, recovered, _) =>
      if recovered.Some? {
        MessageResolves(ids, source, recovered.value);
        ids.ImagesUnion({(RunKind, runId)}, MessageIds(recovered.value));
      }
    case Compact(_, replaced, summary, _) =>
      ReferencesResolve(ids, MessageKind, replaced);
      MessageResolves(ids, source, summary);
      ids.ImagesUnion(Ids(MessageKind, replaced), MessageIds(summary));
  }

  /** An operation is rewritten exactly when what it carries is acceptable and was collected;
      the result is then acceptable for the branch and mentions exactly the images. */
  lemma TransitionResolves(ids: Renaming, source: string, operation: Operation)
    ensures Resolves(ids, source, operation)
  {
    match operation
    case Accept(_, _, _, _, _) => AcceptResolves(ids, source, operation);
    case Terminal(_, _, _, _, _, _) => TerminalResolves(ids, source, operation);
    case Seed(_, _, inputs, _) => MessagesResolve(ids, source, inputs);
    case Acquire(_, _, _, _) =>
    case Interrupt(_, _, _) =>
    case RecordOperation(_, _, _, _, _) =>
    case _ => MessageCarryingResolves(ids, source, operation);
  }

  /** A rewritten operation is parsed once more; the schemas ask of its new identities that none is empty. */
  lemma IdentitiesParse(ids: Renaming, source: string, operation: Operation)
    requires RekeyTransition(ids, source, operation).Success?
    ensures forall identity | identity in OperationIds(RekeyTransition(ids, source, operation).value) :: identity.1 != ""
  {
    TransitionResolves(ids, source, operation);
  }

  // ---- the functor law ----------------------------------------------------------------

  /** When minted identities are new, no source identity survives in a rewritten operation: neither
      in the runs and messages it carries nor in what it refers to. */
  lemma NoSourceIdentityLeft(ids: Renaming, source: string, operation: Operation)
    requires RekeyTransition(ids, source, operation).Success?
    requires forall identity | identity in ids.defined :: ids.Image(identity) !in ids.defined
    ensures OperationIds(RekeyTransition(ids, source, operation).value) !! OperationIds(operation)
  {
    TransitionResolves(ids, source, operation);
  }

  lemma MessagesCompose(outer: Renaming, inner: Renaming, source: string, messages: seq<Message>)
    requires Traverse(Messages(inner, source), messages).Success?
    ensures Agree(Traverse(Messages(outer, inner.conversation), Traverse(Messages(inner, source), messages).value),
                  Traverse(Messages(Compose(outer, inner), source), messages))
  {
    forall message | BranchMessage(inner, source, message).Success?
      ensures Agree(Messages(outer, inner.conversation)(BranchMessage(inner, source, message).value),
                    Messages(Compose(outer, inner), source)(message))
    {
      MessageCompose(outer, inner, source, message);
    }
    TraverseCompose(Messages(inner, source), Messages(outer, inner.conversation),
                    Messages(Compose(outer, inner), source), messages);
  }

  lemma AbsorbCompose(outer: Renaming, inner: Renaming, entries: seq<Absorption>)
    requires Traverse(Absorptions(inner), entries).Success?
    ensures Agree(Traverse(Absorptions(outer), Traverse(Absorptions(inner), entries).value),
                  Traverse(Absorptions(Compose(outer, inner)), entries))
  {
    forall entry | BranchAbsorption(inner, entry).Success?
      ensures Agree(Absorptions(outer)(BranchAbsorption(inner, entry).value), Absorptions(Compose(outer, inner))(entry))
    {
      ReferencesCompose(outer, inner, MessageKind, entry.inputMessageIds);
    }
    TraverseCompose(Absorptions(inner), Absorptions(outer), Absorptions(Compose(outer, inner)), entries);
  }

  lemma AcceptCompose(outer: Renaming, inner: Renaming, source: string, operation: Operation)
    requires operation.Accept? && RekeyTransition(inner, source, operation).Success?
    ensures Agree(RekeyTransition(outer, inner.conversation, RekeyTransition(inner, source, operation).value),
                  RekeyTransition(Compose(outer, inner), source, operation))
  {
    MessageCompose(outer, inner, source, operation.input);
    RunCompose(outer, inner, source, operation.run, false);
    ReferenceIfAnyCompose(outer, inner, RunKind, operation.coalesceIntoRunId);
  }

  lemma TerminalCompose(outer: Renaming, inner: Renaming, source: string, operation: Operation)
    requires operation.Terminal? && RekeyTransition(inner, source, operation).Success?
    ensures Agree(RekeyTransition(outer, inner.conversation, RekeyTransition(inner, source, operation).value),
                  RekeyTransition(Compose(outer, inner), source, operation))
  {
    MessageCompose(outer, inner, source, operation.assistant);
    if operation.absorb.Some? {
      AbsorbCompose(outer, inner, operation.absorb.value);
    }
  }

  /** Rewriting an operation twice is rewriting it once by the composed renaming. */
  lemma TransitionCompose(outer: Renaming, inner: Renaming, source: string, operation: Operation)
    requires RekeyTransition(inner, source, operation).Success?
    ensures Agree(RekeyTransition(outer, inner.conversation, RekeyTransition(inner, source, operation).value),
                  RekeyTransition(Compose(outer, inner), source, operation))
  {
    match operation
    case Accept(_, _, _, _, _) => AcceptCompose(outer, inner, source, operation);
    case Seed(_, _, inputs, _) => MessagesCompose(outer, inner, source, inputs);
    case Compact(_, replaced, summary, _) =>
      ReferencesCompose(outer, inner, MessageKind, replaced);
      MessageCompose(outer, inner, source, summary);
    case Checkpoint(_, _, _, assistant, _) => MessageCompose(outer, inner, source, assistant);
    case Recover(_, _, _, recovered, _) =>
      if recovered.Some? { MessageCompose(outer, inner, source, recovered.value); }
    case Terminal(_, _, _, _, _, _) => TerminalCompose(outer, inner, source, operation);
    case _ =>
  }

  // ---- what an operation defines --------------------------------------------------------

  /** `collectOperation` */
  ghost function OperationDefinitions(operation: Operation): set<Identity> {
    match operation
    case Accept(_, input, run, _, _) => RunDefinitions(run) + MessageDefinitions(input)
    case Checkpoint(_, _, _, assistant, _) => MessageDefinitions(assistant)
    case Terminal(_, _, _, assistant, _, _) => MessageDefinitions(assistant)
    case Recover(_, _, _, recovered, _) => if recovered.Some? then MessageDefinitions(recovered.value) else {}
    case Compact(_, _, summary, _) => MessageDefinitions(summary)
    case Seed(_, _, inputs, _) => AllIds(MessageDefinitions, inputs)
    case RecordOperation(_, _, _, recorded, _) => {(OperationKind, recorded.operationId)}
    case _ => {}
  }

  lemma AcceptDefinitionsRenamed(ids: Renaming, source: string, operation: Operation)
    requires operation.Accept? && RekeyTransition(ids, source, operation).Success?
    ensures OperationDefinitions(RekeyTransition(ids, source, operation).value)
              == ids.Images(OperationDefinitions(operation))
  {
    var input, run := operation.input, operation.run;
    MessageDefinitionsRenamed(ids, source, input);
    var run' := BranchRun(ids, source, run, false).value;
    assert RunDefinitions(run') == ids.Images(RunDefinitions(run));
    ids.ImagesUnion(RunDefinitions(run), MessageDefinitions(input));
  }

  lemma OperationDefinitionsRenamed(ids: Renaming, source: string, operation: Operation)
    requires RekeyTransition(ids, source, operation).Success?
    ensures OperationDefinitions(RekeyTransition(ids, source, operation).value)
              == ids.Images(OperationDefinitions(operation))
  {
    match operation
    case Accept(_, _, _, _, _) => AcceptDefinitionsRenamed(ids, source, operation);
    case Checkpoint(_, _, _, assistant, _) => MessageDefinitionsRenamed(ids, source, assistant);
    case Terminal(_, _, _, assistant, _, _) => MessageDefinitionsRenamed(ids, source, assistant);
    case Recover(_, _, _, recovered, _) =>
      if recovered.Some? { MessageDefinitionsRenamed(ids, source, recovered.value); }
    case Compact(_, _, summary, _) => MessageDefinitionsRenamed(ids, source, summary);
    case Seed(_, _, inputs, _) => MessagesDefinitionsRenamed(ids, source, inputs);
    case _ =>
  }

  lemma MessagesDefinitionsRenamed(ids: Renaming, source: string, messages: seq<Message>)
    requires Traverse(Messages(ids, source), messages).Success?
    ensures AllIds(MessageDefinitions, Traverse(Messages(ids, source), messages).value)
              == ids.Images(AllIds(MessageDefinitions, messages))
  {
    forall message | BranchMessage(ids, source, message).Success?
      ensures MessageDefinitions(BranchMessage(ids, source, message).value)
                == ids.Images(MessageDefinitions(message))
    {
      MessageDefinitionsRenamed(ids, source, message);
    }
    TraverseImages(ids, Messages(ids, source), MessageDefinitions, messages);
  }
}
