// Content and identities tell a value apart from every other, so that what is said of them in BranchContents,
// BranchKept and BranchWhole leaves nothing open about a rewritten value
// (branch-transitions.ts, branch-observations.ts, branch-provider.ts, branch-events.ts).
module BranchTold {
  import opened Prelude
  import opened BranchRenaming
  import opened BranchMessages
  import opened BranchTransitions
  import opened BranchBaseline
  import opened BranchObservations
  import opened BranchProvider
  import opened BranchSlots
  import opened BranchContents
  import opened BranchKept

  lemma OneTold(kind: Kind, x: string, y: string)
    requires OneSlot(kind, x) == OneSlot(kind, y)
    ensures x == y
  {
    assert OneSlot(kind, x)[0] == OneSlot(kind, y)[0];
  }

  lemma HomeTold(x: string, y: string)
    requires HomeSlots(x) == HomeSlots(y)
    ensures x == y
  {
    assert HomeSlots(x)[0] == HomeSlots(y)[0];
  }

  lemma ThreeTold(a: seq<Slot>, b: seq<Slot>, c: seq<Slot>, a': seq<Slot>, b': seq<Slot>, c': seq<Slot>)
    requires |a| == |a'| && |b| == |b'| && a + b + c == a' + b' + c'
    ensures a == a' && b == b' && c == c'
  {
    JoinedTold(a + b, c, a' + b', c');
    JoinedTold(a, b, a', b');
  }

  lemma OwnedTold(id: string, runId: string, ownerId: string, id': string, runId': string, ownerId': string)
    requires OwnedSlots(id, runId, ownerId) == OwnedSlots(id', runId', ownerId')
    ensures id == id' && runId == runId' && ownerId == ownerId'
  {
    var x, y := OwnedSlots(id, runId, ownerId), OwnedSlots(id', runId', ownerId');
    assert x[0] == y[0] && x[1] == y[1] && x[2] == y[2];
  }

  // ---- observations ---------------------------------------------------------------------------------

  lemma ConversationTold(x: Option<string>, y: Option<string>)
    requires x.Some? == y.Some?
    ensures |ConversationSlots(x)| == |ConversationSlots(y)|
    ensures ConversationSlots(x) == ConversationSlots(y) ==> x == y
  {
    if x.Some? && ConversationSlots(x) == ConversationSlots(y) {
      assert ConversationSlots(x)[0] == ConversationSlots(y)[0];
    }
  }

  lemma ChildEventTold(x: Observation, y: Observation)
    requires x.ChildEvent? && BlankObservation(x) == BlankObservation(y) && ObservationSlots(x) == ObservationSlots(y)
    ensures x == y
  {
    ConversationTold(x.child, y.child);
    ConversationTold(x.parent, y.parent);
    SlotIfAnyTold(SpillKind, x.resultReference, y.resultReference);
    SlotIfAnyTold(ApprovalKind, x.approvalId, y.approvalId);
    SlotIfAnyTold(ApprovalKind, x.childApprovalId, y.childApprovalId);
    SlotIfAnyTold(CallKind, x.callId, y.callId);
    SlotIfAnyTold(KeyKind, x.batchId, y.batchId);
    ThreeTold(ConversationSlots(x.child), ConversationSlots(x.parent),
              SlotIfAny(SpillKind, x.resultReference) + SlotIfAny(ApprovalKind, x.approvalId)
              + SlotIfAny(ApprovalKind, x.childApprovalId) + SlotIfAny(CallKind, x.callId) + SlotIfAny(KeyKind, x.batchId),
              ConversationSlots(y.child), ConversationSlots(y.parent),
              SlotIfAny(SpillKind, y.resultReference) + SlotIfAny(ApprovalKind, y.approvalId)
              + SlotIfAny(ApprovalKind, y.childApprovalId) + SlotIfAny(CallKind, y.callId) + SlotIfAny(KeyKind, y.batchId));
    FiveTold(SlotIfAny(SpillKind, x.resultReference), SlotIfAny(ApprovalKind, x.approvalId),
             SlotIfAny(ApprovalKind, x.childApprovalId), SlotIfAny(CallKind, x.callId), SlotIfAny(KeyKind, x.batchId),
             SlotIfAny(SpillKind, y.resultReference), SlotIfAny(ApprovalKind, y.approvalId),
             SlotIfAny(ApprovalKind, y.childApprovalId), SlotIfAny(CallKind, y.callId), SlotIfAny(KeyKind, y.batchId));
  }

  lemma ObservationTold(x: Observation, y: Observation)
    requires BlankObservation(x) == BlankObservation(y) && ObservationSlots(x) == ObservationSlots(y)
    ensures x == y
  {
    match x
    case Durability(runId, key, _, _) =>
      SlotIfAnyTold(KeyKind, key, y.key);
      JoinedTold(OneSlot(RunKind, runId), SlotIfAny(KeyKind, key), OneSlot(RunKind, y.runId), SlotIfAny(KeyKind, y.key));
      OneTold(RunKind, runId, y.runId);
    case Spilled(reference, _) => OneTold(SpillKind, reference, y.reference);
    case Scheduled(id, _) => OneTold(ScheduleKind, id, y.scheduleId);
    case ChildEvent(_, _, _, _, _, _, _, _, _, _) => ChildEventTold(x, y);
    case Rejected(approvalId, callId, _) =>
      JoinedTold(OneSlot(ApprovalKind, approvalId), OneSlot(CallKind, callId),
                 OneSlot(ApprovalKind, y.rejectedId), OneSlot(CallKind, y.rejectedCall));
      OneTold(ApprovalKind, approvalId, y.rejectedId);
      OneTold(CallKind, callId, y.rejectedCall);
    case _ =>
  }

  // ---- provider messages ----------------------------------------------------------------------------

  lemma OutputTold(toolName: string, x: ToolOutput, y: ToolOutput)
    requires OutputAccepted(toolName, x) && OutputAccepted(toolName, y)
    requires BlankOutput(toolName, x) == BlankOutput(toolName, y)
    ensures |OutputSlots(toolName, x)| == |OutputSlots(toolName, y)|
    ensures OutputSlots(toolName, x) == OutputSlots(toolName, y) ==> x == y
  {
    if x.JsonOutput? {
      ToolJsonTold(toolName, x.value, y.value, true);
    }
  }

  lemma ContentTold(x: Content, y: Content)
    requires ContentAccepted(x) && ContentAccepted(y) && BlankContent(x) == BlankContent(y)
    ensures |ContentSlots(x)| == |ContentSlots(y)|
    ensures ContentSlots(x) == ContentSlots(y) ==> x == y
  {
    match x
    case PlainContent(_, _, _, _) =>
    case CallContent(callId, toolName, input, _, _) =>
      ToolJsonTold(toolName, input, y.input, false);
      if ContentSlots(x) == ContentSlots(y) {
        JoinedTold(OneSlot(CallKind, callId), ToolJsonSlots(toolName, input, false),
                   OneSlot(CallKind, y.toolCallId), ToolJsonSlots(toolName, y.input, false));
        OneTold(CallKind, callId, y.toolCallId);
      }
    case ResultContent(callId, toolName, output, _) =>
      OutputTold(toolName, output, y.output);
      if ContentSlots(x) == ContentSlots(y) {
        JoinedTold(OneSlot(CallKind, callId), OutputSlots(toolName, output),
                   OneSlot(CallKind, y.toolCallId), OutputSlots(toolName, y.output));
        OneTold(CallKind, callId, y.toolCallId);
      }
    case _ => SimpleContentTold(x, y);
  }

  lemma SimpleContentTold(x: Content, y: Content)
    requires x.RequestContent? || x.ResponseContent?
    requires BlankContent(x) == BlankContent(y)
    ensures |ContentSlots(x)| == |ContentSlots(y)|
    ensures ContentSlots(x) == ContentSlots(y) ==> x == y
  {
    if ContentSlots(x) == ContentSlots(y) {
      if x.RequestContent? {
        JoinedTold(OneSlot(ApprovalKind, x.approvalId), OneSlot(CallKind, x.toolCallId),
                   OneSlot(ApprovalKind, y.approvalId), OneSlot(CallKind, y.toolCallId));
        OneTold(CallKind, x.toolCallId, y.toolCallId);
      }
      OneTold(ApprovalKind, x.approvalId, y.approvalId);
    }
  }

  lemma ProviderMessageTold(x: ProviderMessage, y: ProviderMessage)
    requires ProviderMessageAccepted(x) && ProviderMessageAccepted(y)
    requires BlankProviderMessage(x) == BlankProviderMessage(y) && ProviderMessageSlots(x) == ProviderMessageSlots(y)
    ensures x == y
  {
    if x.body.PartsBody? {
      var a, b := x.body.content, y.body.content;
      forall c, d | c in a && d in b && BlankContent(c) == BlankContent(d)
        ensures |ContentSlots(c)| == |ContentSlots(d)| && (ContentSlots(c) == ContentSlots(d) ==> c == d)
      {
        ContentTold(c, d);
      }
      ListTold(BlankContent, ContentSlots, a, b);
    }
  }

  // ---- store operations -------------------------------------------------------------------------------

  lemma AbsorptionTold(x: Absorption, y: Absorption)
    requires BlankAbsorption(x) == BlankAbsorption(y)
    ensures |AbsorptionSlots(x)| == |AbsorptionSlots(y)|
    ensures AbsorptionSlots(x) == AbsorptionSlots(y) ==> x == y
  {
    assert |x.inputMessageIds| == |BlankAbsorption(x).inputMessageIds| == |y.inputMessageIds|;
    if AbsorptionSlots(x) == AbsorptionSlots(y) {
      JoinedTold(OneSlot(RunKind, x.runId), SlotsOf(MessageKind, x.inputMessageIds),
                 OneSlot(RunKind, y.runId), SlotsOf(MessageKind, y.inputMessageIds));
      OneTold(RunKind, x.runId, y.runId);
      SlotsOfTold(MessageKind, x.inputMessageIds, y.inputMessageIds);
    }
  }

  lemma AbsorbTold(x: Option<seq<Absorption>>, y: Option<seq<Absorption>>)
    requires BlankIfAny(BlankAbsorptions, x) == BlankIfAny(BlankAbsorptions, y) && AbsorbSlots(x) == AbsorbSlots(y)
    ensures x == y
  {
    if x.Some? {
      assert BlankAbsorptions(x.value) == BlankAbsorptions(y.value);
      forall a: Absorption, b: Absorption | BlankAbsorption(a) == BlankAbsorption(b)
        ensures |AbsorptionSlots(a)| == |AbsorptionSlots(b)| && (AbsorptionSlots(a) == AbsorptionSlots(b) ==> a == b)
      {
        AbsorptionTold(a, b);
      }
      ListTold(BlankAbsorption, AbsorptionSlots, x.value, y.value);
    }
  }

  lemma MessagesTold(x: seq<Message>, y: seq<Message>)
    requires forall message | message in x :: MessageAccepted(message)
    requires forall message | message in y :: MessageAccepted(message)
    requires AllBlank(BlankMessage, x) == AllBlank(BlankMessage, y)
    ensures |AllSlots(MessageSlots, x)| == |AllSlots(MessageSlots, y)|
    ensures AllSlots(MessageSlots, x) == AllSlots(MessageSlots, y) ==> x == y
  {
    forall a, b | a in x && b in y && BlankMessage(a) == BlankMessage(b)
      ensures |MessageSlots(a)| == |MessageSlots(b)| && (MessageSlots(a) == MessageSlots(b) ==> a == b)
    {
      MessageTold(a, b);
    }
    ListTold(BlankMessage, MessageSlots, x, y);
  }

  /** Operations of the same content with the same identities in the same places, in whatever conversations. */
  ghost predicate Alike(source: string, x: Operation, source': string, y: Operation) {
    && OperationAccepted(source, x) && OperationAccepted(source', y)
    && BlankTransition(x) == BlankTransition(y) && TransitionSlots(x) == TransitionSlots(y)
  }

  lemma AcceptTold(source: string, x: Operation, source': string, y: Operation)
    requires x.Accept? && Alike(source, x, source', y)
    ensures x == y
  {
    MessageTold(x.input, y.input);
    RunTold(x.run, y.run);
    SlotIfAnyTold(RunKind, x.coalesceIntoRunId, y.coalesceIntoRunId);
    ThreeTold(OneSlot(KeyKind, x.idempotencyKey) + MessageSlots(x.input), RunSlots(x.run),
              SlotIfAny(RunKind, x.coalesceIntoRunId),
              OneSlot(KeyKind, y.idempotencyKey) + MessageSlots(y.input), RunSlots(y.run),
              SlotIfAny(RunKind, y.coalesceIntoRunId));
    JoinedTold(OneSlot(KeyKind, x.idempotencyKey), MessageSlots(x.input),
               OneSlot(KeyKind, y.idempotencyKey), MessageSlots(y.input));
    OneTold(KeyKind, x.idempotencyKey, y.idempotencyKey);
  }

  lemma TerminalTold(source: string, x: Operation, source': string, y: Operation)
    requires x.Terminal? && Alike(source, x, source', y)
    ensures x == y
  {
    MessageTold(x.assistant, y.assistant);
    ThreeTold(OwnedSlots(x.conversationId, x.runId, x.ownerId), MessageSlots(x.assistant), AbsorbSlots(x.absorb),
              OwnedSlots(y.conversationId, y.runId, y.ownerId), MessageSlots(y.assistant), AbsorbSlots(y.absorb));
    OwnedTold(x.conversationId, x.runId, x.ownerId, y.conversationId, y.runId, y.ownerId);
    AbsorbTold(x.absorb, y.absorb);
  }

  lemma CompactTold(source: string, x: Operation, source': string, y: Operation)
    requires x.Compact? && Alike(source, x, source', y)
    ensures x == y
  {
    var blank := BlankTransition(x);
    assert |x.replacedMessageIds| == |blank.replacedMessageIds| == |y.replacedMessageIds|;
    MessageTold(x.summary, y.summary);
    ThreeTold(HomeSlots(x.conversationId), SlotsOf(MessageKind, x.replacedMessageIds), MessageSlots(x.summary),
              HomeSlots(y.conversationId), SlotsOf(MessageKind, y.replacedMessageIds), MessageSlots(y.summary));
    HomeTold(x.conversationId, y.conversationId);
    SlotsOfTold(MessageKind, x.replacedMessageIds, y.replacedMessageIds);
  }

  lemma SeedTold(source: string, x: Operation, source': string, y: Operation)
    requires x.Seed? && Alike(source, x, source', y)
    ensures x == y
  {
    assert forall message | message in x.inputs :: MessagesOf(source)(message);
    assert forall message | message in y.inputs :: MessagesOf(source')(message);
    MessagesTold(x.inputs, y.inputs);
    ThreeTold(HomeSlots(x.conversationId), OneSlot(KeyKind, x.seedKey), AllSlots(MessageSlots, x.inputs),
              HomeSlots(y.conversationId), OneSlot(KeyKind, y.seedKey), AllSlots(MessageSlots, y.inputs));
    HomeTold(x.conversationId, y.conversationId);
    OneTold(KeyKind, x.seedKey, y.seedKey);
  }

  lemma RecoverTold(source: string, x: Operation, source': string, y: Operation)
    requires x.Recover? && Alike(source, x, source', y)
    ensures x == y
  {
    if x.recovered.Some? {
      MessageTold(x.recovered.value, y.recovered.value);
    }
    ThreeTold(HomeSlots(x.conversationId), OneSlot(RunKind, x.runId), MessageSlotsIfAny(x.recovered),
              HomeSlots(y.conversationId), OneSlot(RunKind, y.runId), MessageSlotsIfAny(y.recovered));
    HomeTold(x.conversationId, y.conversationId);
    OneTold(RunKind, x.runId, y.runId);
  }

  lemma OwnedOperationTold(source: string, x: Operation, source': string, y: Operation)
    requires x.Checkpoint? || x.RecordOperation? || x.Acquire?
    requires Alike(source, x, source', y)
    ensures x == y
  {
    var own, own' := OwnedSlots(x.conversationId, x.runId, x.ownerId), OwnedSlots(y.conversationId, y.runId, y.ownerId);
    if x.Checkpoint? {
      MessageTold(x.assistant, y.assistant);
      JoinedTold(own, MessageSlots(x.assistant), own', MessageSlots(y.assistant));
    } else if x.RecordOperation? {
      JoinedTold(own, OneSlot(OperationKind, x.operation.operationId), own', OneSlot(OperationKind, y.operation.operationId));
      OneTold(OperationKind, x.operation.operationId, y.operation.operationId);
    }
    OwnedTold(x.conversationId, x.runId, x.ownerId, y.conversationId, y.runId, y.ownerId);
  }

  /** No two operations have the same content and the same identities in the same places. */
  lemma TransitionTold(source: string, x: Operation, source': string, y: Operation)
    requires Alike(source, x, source', y)
    ensures x == y
  {
    match x
    case Accept(_, _, _, _, _) => AcceptTold(source, x, source', y);
    case Terminal(_, _, _, _, _, _) => TerminalTold(source, x, source', y);
    case Compact(_, _, _, _) => CompactTold(source, x, source', y);
    case Seed(_, _, _, _) => SeedTold(source, x, source', y);
    case Recover(_, _, _, _, _) => RecoverTold(source, x, source', y);
    case Interrupt(id, runId, _) =>
      JoinedTold(HomeSlots(id), OneSlot(RunKind, runId), HomeSlots(y.conversationId), OneSlot(RunKind, y.runId));
      HomeTold(id, y.conversationId);
      OneTold(RunKind, runId, y.runId);
    case _ => OwnedOperationTold(source, x, source', y);
  }

  // ---- baselines --------------------------------------------------------------------------------------

  lemma StoredRunTold(x: StoredRun, y: StoredRun)
    requires x.terminal.Some? ==> MessageAccepted(x.terminal.value)
    requires y.terminal.Some? ==> MessageAccepted(y.terminal.value)
    requires BlankStoredRun(x) == BlankStoredRun(y)
    ensures |StoredRunSlots(x)| == |StoredRunSlots(y)|
    ensures StoredRunSlots(x) == StoredRunSlots(y) ==> x == y
  {
    RunTold(x.run, y.run);
    if x.terminal.Some? {
      MessageTold(x.terminal.value, y.terminal.value);
    }
    if StoredRunSlots(x) == StoredRunSlots(y) {
      JoinedTold(RunSlots(x.run), MessageSlotsIfAny(x.terminal), RunSlots(y.run), MessageSlotsIfAny(y.terminal));
    }
  }

  lemma AdmissionTold(x: Admission, y: Admission)
    requires MessageAccepted(x.input) && MessageAccepted(y.input) && BlankAdmission(x) == BlankAdmission(y)
    ensures |AdmissionSlots(x)| == |AdmissionSlots(y)|
    ensures AdmissionSlots(x) == AdmissionSlots(y) ==> x == y
  {
    MessageTold(x.input, y.input);
    if AdmissionSlots(x) == AdmissionSlots(y) {
      FiveTold(HomeSlots(x.conversationId), OneSlot(KeyKind, x.idempotencyKey), MessageSlots(x.input),
               OneSlot(RunKind, x.runId), OneSlot(MessageKind, x.assistantMessageId),
               HomeSlots(y.conversationId), OneSlot(KeyKind, y.idempotencyKey), MessageSlots(y.input),
               OneSlot(RunKind, y.runId), OneSlot(MessageKind, y.assistantMessageId));
      HomeTold(x.conversationId, y.conversationId);
      OneTold(KeyKind, x.idempotencyKey, y.idempotencyKey);
      OneTold(RunKind, x.runId, y.runId);
      OneTold(MessageKind, x.assistantMessageId, y.assistantMessageId);
    }
  }

  lemma StoredRunsTold(source: string, x: seq<StoredRun>, source': string, y: seq<StoredRun>)
    requires forall record | record in x :: StoredRunsOf(source)(record)
    requires forall record | record in y :: StoredRunsOf(source')(record)
    requires AllBlank(BlankStoredRun, x) == AllBlank(BlankStoredRun, y)
    ensures |AllSlots(StoredRunSlots, x)| == |AllSlots(StoredRunSlots, y)|
    ensures AllSlots(StoredRunSlots, x) == AllSlots(StoredRunSlots, y) ==> x == y
  {
    forall a, b | a in x && b in y && BlankStoredRun(a) == BlankStoredRun(b)
      ensures |StoredRunSlots(a)| == |StoredRunSlots(b)| && (StoredRunSlots(a) == StoredRunSlots(b) ==> a == b)
    {
      assert StoredRunsOf(source)(a) && StoredRunsOf(source')(b);
      StoredRunTold(a, b);
    }
    ListTold(BlankStoredRun, StoredRunSlots, x, y);
  }

  lemma AdmissionsTold(source: string, x: seq<Admission>, source': string, y: seq<Admission>)
    requires forall receipt | receipt in x :: AdmissionsOf(source)(receipt)
    requires forall receipt | receipt in y :: AdmissionsOf(source')(receipt)
    requires AllBlank(BlankAdmission, x) == AllBlank(BlankAdmission, y)
    ensures |AllSlots(AdmissionSlots, x)| == |AllSlots(AdmissionSlots, y)|
    ensures AllSlots(AdmissionSlots, x) == AllSlots(AdmissionSlots, y) ==> x == y
  {
    forall a, b | a in x && b in y && BlankAdmission(a) == BlankAdmission(b)
      ensures |AdmissionSlots(a)| == |AdmissionSlots(b)| && (AdmissionSlots(a) == AdmissionSlots(b) ==> a == b)
    {
      assert AdmissionsOf(source)(a) && AdmissionsOf(source')(b);
      AdmissionTold(a, b);
    }
    ListTold(BlankAdmission, AdmissionSlots, x, y);
  }

  lemma CompactedTold(x: Option<seq<string>>, y: Option<seq<string>>)
    requires BlankIfAny(BlankList, x) == BlankIfAny(BlankList, y)
    ensures |CompactedSlots(x)| == |CompactedSlots(y)|
    ensures CompactedSlots(x) == CompactedSlots(y) ==> x == y
  {
    if x.Some? {
      assert |x.value| == |BlankList(x.value)| == |BlankList(y.value)| == |y.value|;
      if CompactedSlots(x) == CompactedSlots(y) {
        SlotsOfTold(MessageKind, x.value, y.value);
      }
    }
  }

  lemma BaselineTold(source: string, x: Baseline, source': string, y: Baseline)
    requires BaselineAccepted(source, x) && BaselineAccepted(source', y)
    requires BlankBaseline(x) == BlankBaseline(y) && BaselineSlots(x) == BaselineSlots(y)
    ensures x == y
  {
    assert forall message | message in x.messages :: MessagesOf(source)(message);
    assert forall message | message in y.messages :: MessagesOf(source')(message);
    MessagesTold(x.messages, y.messages);
    CompactedTold(x.compacted, y.compacted);
    StoredRunsTold(source, x.runs, source', y.runs);
    AdmissionsTold(source, x.admissions, source', y.admissions);
    FiveTold(HomeSlots(x.conversationId), AllSlots(MessageSlots, x.messages), CompactedSlots(x.compacted),
             AllSlots(StoredRunSlots, x.runs), AllSlots(AdmissionSlots, x.admissions),
             HomeSlots(y.conversationId), AllSlots(MessageSlots, y.messages), CompactedSlots(y.compacted),
             AllSlots(StoredRunSlots, y.runs), AllSlots(AdmissionSlots, y.admissions));
    HomeTold(x.conversationId, y.conversationId);
  }

  // ---- rewritten values are determined ----------------------------------------------------------------

  /** So the rewritten operation is the only one that could be meant: acceptable for the branch, of the same
      content, with every identity replaced by its image. */
  lemma TransitionDetermined(ids: Renaming, source: string, operation: Operation, other: Operation)
    requires RekeyTransition(ids, source, operation).Success? && KeepsTransition(operation)
    requires OperationAccepted(ids.conversation, other) && BlankTransition(other) == BlankTransition(operation)
    requires TransitionSlots(other) == SlotImages(ids, source, TransitionSlots(operation))
    ensures RekeyTransition(ids, source, operation) == Success(other)
  {
    TransitionKept(ids, source, operation);
    TransitionResolves(ids, source, operation);
    TransitionTold(ids.conversation, other, ids.conversation, RekeyTransition(ids, source, operation).value);
  }

  /** And so is the rewritten provider message. */
  lemma ProviderMessageDetermined(ids: Renaming, source: string, message: ProviderMessage, other: ProviderMessage)
    requires BranchProviderMessage(ids, message).Success? && KeepsProviderMessage(message)
    requires ProviderMessageAccepted(other) && BlankProviderMessage(other) == BlankProviderMessage(message)
    requires ProviderMessageSlots(other) == SlotImages(ids, source, ProviderMessageSlots(message))
    ensures BranchProviderMessage(ids, message) == Success(other)
  {
    ProviderMessageKept(ids, source, message);
    ProviderMessageResolves(ids, message);
    ProviderMessageTold(other, BranchProviderMessage(ids, message).value);
  }

  lemma BaselineDetermined(ids: Renaming, source: string, baseline: Baseline, other: Baseline)
    requires RekeyBaseline(ids, source, baseline).Success? && KeepsBaseline(baseline)
    requires BaselineAccepted(ids.conversation, other) && BlankBaseline(other) == BlankBaseline(baseline)
    requires BaselineSlots(other) == SlotImages(ids, source, BaselineSlots(baseline))
    ensures RekeyBaseline(ids, source, baseline) == Success(other)
  {
    BaselineKept(ids, source, baseline);
    BaselineResolves(ids, source, baseline);
    BaselineTold(ids.conversation, other, ids.conversation, RekeyBaseline(ids, source, baseline).value);
  }

  lemma ObservationDetermined(ids: Renaming, source: string, observation: Observation, other: Observation)
    requires BranchObservation(ids, source, observation).Success?
    requires BlankObservation(other) == BlankObservation(observation)
    requires ObservationSlots(other) == SlotImages(ids, source, ObservationSlots(observation))
    ensures BranchObservation(ids, source, observation) == Success(other)
  {
    ObservationKept(ids, source, observation);
    ObservationTold(other, BranchObservation(ids, source, observation).value);
  }
}
