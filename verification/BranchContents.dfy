// A branch keeps what is not an identity, level by level: store operations and baselines
// (branch-transitions.ts, branch-events.ts).
module BranchContents {
  import opened Prelude
  import opened BranchRenaming
  import opened BranchMessages
  import opened BranchTransitions
  import opened BranchBaseline
  import opened BranchSlots

  // ---- store operations -----------------------------------------------------------------------

  function BlankAbsorption(entry: Absorption): Absorption {
    Absorption("", AllBlank(Blanked, entry.inputMessageIds))
  }

  function BlankAbsorptions(entries: seq<Absorption>): seq<Absorption> {
    AllBlank(BlankAbsorption, entries)
  }

  function AbsorptionSlots(entry: Absorption): seq<Slot> {
    OneSlot(RunKind, entry.runId) + SlotsOf(MessageKind, entry.inputMessageIds)
  }

  /** Everything of an operation but its identities, the kind of operation included. */
  function BlankTransition(operation: Operation): Operation {
    match operation
    case Accept(_, input, run, coalesce, facts) =>
      Accept("", BlankMessage(input), BlankRun(run), BlankIfAny(Blanked, coalesce), facts)
    case Acquire(_, _, _, facts) => Acquire("", "", "", facts)
    case Checkpoint(_, _, _, assistant, facts) => Checkpoint("", "", "", BlankMessage(assistant), facts)
    case RecordOperation(_, _, _, recorded, facts) => RecordOperation("", "", "", RunOperation("", recorded.facts), facts)
    case Interrupt(_, _, facts) => Interrupt("", "", facts)
    case Recover(_, _, abandons, recovered, facts) => Recover("", "", abandons, BlankIfAny(BlankMessage, recovered), facts)
    case Terminal(_, _, _, assistant, absorb, facts) =>
      Terminal("", "", "", BlankMessage(assistant), BlankIfAny(BlankAbsorptions, absorb), facts)
    case Compact(_, replaced, summary, facts) => Compact("", AllBlank(Blanked, replaced), BlankMessage(summary), facts)
    case Seed(_, _, inputs, facts) => Seed("", "", AllBlank(BlankMessage, inputs), facts)
  }

  function MessageSlotsIfAny(message: Option<Message>): seq<Slot> {
    if message.Some? then MessageSlots(message.value) else []
  }

  function AbsorbSlots(absorb: Option<seq<Absorption>>): seq<Slot> {
    if absorb.Some? then AllSlots(AbsorptionSlots, absorb.value) else []
  }

  function OwnedSlots(conversationId: string, runId: string, ownerId: string): seq<Slot> {
    [HomeSlot(conversationId), IdSlot(RunKind, runId), IdSlot(OwnerKind, ownerId)]
  }

  function TransitionSlots(operation: Operation): seq<Slot> {
    match operation
    case Accept(key, input, run, coalesce, _) =>
      OneSlot(KeyKind, key) + MessageSlots(input) + RunSlots(run) + SlotIfAny(RunKind, coalesce)
    case Acquire(id, runId, ownerId, _) => OwnedSlots(id, runId, ownerId)
    case Checkpoint(id, runId, ownerId, assistant, _) => OwnedSlots(id, runId, ownerId) + MessageSlots(assistant)
    case RecordOperation(id, runId, ownerId, recorded, _) =>
      OwnedSlots(id, runId, ownerId) + OneSlot(OperationKind, recorded.operationId)
    case Interrupt(id, runId, _) => HomeSlots(id) + OneSlot(RunKind, runId)
    case Recover(id, runId, _, recovered, _) => HomeSlots(id) + OneSlot(RunKind, runId) + MessageSlotsIfAny(recovered)
    case Terminal(id, runId, ownerId, assistant, absorb, _) =>
      OwnedSlots(id, runId, ownerId) + MessageSlots(assistant) + AbsorbSlots(absorb)
    case Compact(id, replaced, summary, _) => HomeSlots(id) + SlotsOf(MessageKind, replaced) + MessageSlots(summary)
    case Seed(id, key, inputs, _) => HomeSlots(id) + OneSlot(KeyKind, key) + AllSlots(MessageSlots, inputs)
  }

  /** No message it carries is rebuilt. */
  predicate KeepsTransition(operation: Operation) {
    match operation
    case Accept(_, input, _, _, _) => KeepsMessage(input)
    case Checkpoint(_, _, _, assistant, _) => KeepsMessage(assistant)
    case Recover(_, _, _, recovered, _) => recovered.Some? ==> KeepsMessage(recovered.value)
    case Terminal(_, _, _, assistant, _, _) => KeepsMessage(assistant)
    case Compact(_, _, summary, _) => KeepsMessage(summary)
    case Seed(_, _, inputs, _) => forall message | message in inputs :: KeepsMessage(message)
    case _ => true
  }

  /** The rewriting of an operation keeps its content exactly when no message of it is rebuilt, and replaces
      every identity in it by its own image. */
  ghost predicate Kept(ids: Renaming, source: string, operation: Operation, after: Operation) {
    && (BlankTransition(after) == BlankTransition(operation) <==> KeepsTransition(operation))
    && TransitionSlots(after) == SlotImages(ids, source, TransitionSlots(operation))
  }

  lemma AbsorptionKept(ids: Renaming, source: string, entry: Absorption)
    requires BranchAbsorption(ids, entry).Success?
    ensures var after := BranchAbsorption(ids, entry).value;
            BlankAbsorption(after) == BlankAbsorption(entry)
            && AbsorptionSlots(after) == SlotImages(ids, source, AbsorptionSlots(entry))
  {
    var after := BranchAbsorption(ids, entry).value;
    SlotsRenamed(ids, source, MessageKind, entry.inputMessageIds);
    BlankedAlike(after.inputMessageIds, entry.inputMessageIds);
    HeadRenamed(ids, source, RunKind, entry.runId);
    SlotImagesJoin(ids, source, OneSlot(RunKind, entry.runId), SlotsOf(MessageKind, entry.inputMessageIds));
  }

  lemma AbsorbKept(ids: Renaming, source: string, absorb: Option<seq<Absorption>>)
    requires AbsorbIfAny(ids, absorb).Success?
    ensures var after := AbsorbIfAny(ids, absorb).value;
            && BlankIfAny(BlankAbsorptions, after) == BlankIfAny(BlankAbsorptions, absorb)
            && AbsorbSlots(after) == SlotImages(ids, source, AbsorbSlots(absorb))
  {
    if absorb.Some? {
      var entries, after := absorb.value, AbsorbIfAny(ids, absorb).value.value;
      forall i | 0 <= i < |entries|
        ensures BlankAbsorption(after[i]) == BlankAbsorption(entries[i])
        ensures AbsorptionSlots(after[i]) == SlotImages(ids, source, AbsorptionSlots(entries[i]))
      {
        AbsorptionKept(ids, source, entries[i]);
      }
      ListSlotsRenamed(ids, source, AbsorptionSlots, entries, after);
      assert BlankAbsorptions(after) == BlankAbsorptions(entries);
    }
  }

  lemma MessagesKept(ids: Renaming, source: string, messages: seq<Message>)
    requires Traverse(Messages(ids, source), messages).Success?
    ensures var after := Traverse(Messages(ids, source), messages).value;
            && (AllBlank(BlankMessage, after) == AllBlank(BlankMessage, messages) <==>
                  forall message | message in messages :: KeepsMessage(message))
            && AllSlots(MessageSlots, after) == SlotImages(ids, source, AllSlots(MessageSlots, messages))
  {
    var after := Traverse(Messages(ids, source), messages).value;
    forall i | 0 <= i < |messages|
      ensures BlankMessage(after[i]) == BlankMessage(messages[i]) <==> KeepsMessage(messages[i])
      ensures MessageSlots(after[i]) == SlotImages(ids, source, MessageSlots(messages[i]))
    {
      MessageKept(ids, source, messages[i]);
    }
    ListKept(BlankMessage, KeepsMessage, messages, after);
    ListSlotsRenamed(ids, source, MessageSlots, messages, after);
  }

  /** What rewriting each kind of operation does to its fields. */
  ghost predicate Fields(ids: Renaming, source: string, operation: Operation, after: Operation) {
    match operation
    case Accept(key, input, run, coalesce, facts) =>
      && after.Accept? && after.facts == facts && after.idempotencyKey == ids.mint(KeyKind, key)
      && BranchMessage(ids, source, input) == Success(after.input)
      && BranchRun(ids, source, run, false) == Success(after.run)
      && after.coalesceIntoRunId == ids.DefineIfAny(RunKind, coalesce)
    case Acquire(_, runId, ownerId, facts) =>
      after == Acquire(ids.conversation, ids.mint(RunKind, runId), ids.mint(OwnerKind, ownerId), facts)
    case Checkpoint(_, runId, ownerId, assistant, facts) =>
      && after.Checkpoint? && after.facts == facts
      && Owned(ids, runId, ownerId, after.conversationId, after.runId, after.ownerId)
      && BranchMessage(ids, source, assistant) == Success(after.assistant)
    case RecordOperation(_, runId, ownerId, recorded, facts) =>
      && after.RecordOperation? && after.facts == facts
      && Owned(ids, runId, ownerId, after.conversationId, after.runId, after.ownerId)
      && after.operation == RunOperation(ids.mint(OperationKind, recorded.operationId), recorded.facts)
    case Interrupt(_, runId, facts) => after == Interrupt(ids.conversation, ids.mint(RunKind, runId), facts)
    case Recover(_, runId, abandons, recovered, facts) =>
      && after.Recover? && after.facts == facts && after.abandons == abandons
      && after.conversationId == ids.conversation && after.runId == ids.mint(RunKind, runId)
      && MessageIfAny(ids, source, recovered) == Success(after.recovered)
    case Terminal(_, runId, ownerId, assistant, absorb, facts) =>
      && after.Terminal? && after.facts == facts
      && Owned(ids, runId, ownerId, after.conversationId, after.runId, after.ownerId)
      && BranchMessage(ids, source, assistant) == Success(after.assistant)
      && AbsorbIfAny(ids, absorb) == Success(after.absorb)
    case Compact(_, replaced, summary, facts) =>
      && after.Compact? && after.facts == facts && after.conversationId == ids.conversation
      && ids.References(MessageKind, replaced) == Success(after.replacedMessageIds)
      && BranchMessage(ids, source, summary) == Success(after.summary)
    case Seed(_, key, inputs, facts) =>
      && after.Seed? && after.facts == facts && after.conversationId == ids.conversation
      && after.seedKey == ids.mint(KeyKind, key)
      && Traverse(Messages(ids, source), inputs) == Success(after.inputs)
  }

  predicate Owned(ids: Renaming, runId: string, ownerId: string, conversation': string, runId': string, ownerId': string) {
    conversation' == ids.conversation && runId' == ids.mint(RunKind, runId) && ownerId' == ids.mint(OwnerKind, ownerId)
  }

  lemma FieldsRekeyed(ids: Renaming, source: string, operation: Operation)
    requires RekeyTransition(ids, source, operation).Success?
    ensures Fields(ids, source, operation, RekeyTransition(ids, source, operation).value)
  {
  }

  lemma AcceptKept(ids: Renaming, source: string, operation: Operation, after: Operation)
    requires operation.Accept? && Fields(ids, source, operation, after)
    ensures Kept(ids, source, operation, after)
  {
    MessageKept(ids, source, operation.input);
    RunKept(ids, source, operation.run);
    HeadRenamed(ids, source, KeyKind, operation.idempotencyKey);
    IfAnyRenamed(ids, source, RunKind, operation.coalesceIntoRunId);
    var key, input, run, coalesce := OneSlot(KeyKind, operation.idempotencyKey), MessageSlots(operation.input),
                                     RunSlots(operation.run), SlotIfAny(RunKind, operation.coalesceIntoRunId);
    SlotImagesJoin(ids, source, key, input);
    SlotImagesJoin(ids, source, key + input, run);
    SlotImagesJoin(ids, source, key + input + run, coalesce);
  }

  lemma OwnedRenamed(ids: Renaming, source: string, conversation: string, runId: string, ownerId: string,
                     conversation': string, runId': string, ownerId': string)
    requires Owned(ids, runId, ownerId, conversation', runId', ownerId')
    ensures OwnedSlots(conversation', runId', ownerId') == SlotImages(ids, source, OwnedSlots(conversation, runId, ownerId))
  {
  }

  lemma TerminalKept(ids: Renaming, source: string, operation: Operation, after: Operation)
    requires operation.Terminal? && Fields(ids, source, operation, after)
    ensures Kept(ids, source, operation, after)
  {
    MessageKept(ids, source, operation.assistant);
    AbsorbKept(ids, source, operation.absorb);
    OwnedRenamed(ids, source, operation.conversationId, operation.runId, operation.ownerId,
                 after.conversationId, after.runId, after.ownerId);
    var owned := OwnedSlots(operation.conversationId, operation.runId, operation.ownerId);
    SlotImagesJoin(ids, source, owned, MessageSlots(operation.assistant));
    SlotImagesJoin(ids, source, owned + MessageSlots(operation.assistant), AbsorbSlots(operation.absorb));
  }

  lemma CompactKept(ids: Renaming, source: string, operation: Operation, after: Operation)
    requires operation.Compact? && Fields(ids, source, operation, after)
    ensures Kept(ids, source, operation, after)
  {
    var home, replaced := HomeSlots(operation.conversationId), SlotsOf(MessageKind, operation.replacedMessageIds);
    MessageKept(ids, source, operation.summary);
    SlotsRenamed(ids, source, MessageKind, operation.replacedMessageIds);
    BlankedAlike(after.replacedMessageIds, operation.replacedMessageIds);
    HeadRenamed(ids, source, MessageKind, operation.conversationId);
    SlotImagesJoin(ids, source, home, replaced);
    SlotImagesJoin(ids, source, home + replaced, MessageSlots(operation.summary));
  }

  lemma SeedKept(ids: Renaming, source: string, operation: Operation, after: Operation)
    requires operation.Seed? && Fields(ids, source, operation, after)
    ensures Kept(ids, source, operation, after)
  {
    var home, key := HomeSlots(operation.conversationId), OneSlot(KeyKind, operation.seedKey);
    MessagesKept(ids, source, operation.inputs);
    HeadRenamed(ids, source, KeyKind, operation.seedKey);
    HeadRenamed(ids, source, KeyKind, operation.conversationId);
    SlotImagesJoin(ids, source, home, key);
    SlotImagesJoin(ids, source, home + key, AllSlots(MessageSlots, operation.inputs));
  }

  lemma RecoverKept(ids: Renaming, source: string, operation: Operation, after: Operation)
    requires operation.Recover? && Fields(ids, source, operation, after)
    ensures Kept(ids, source, operation, after)
  {
    var home, run := HomeSlots(operation.conversationId), OneSlot(RunKind, operation.runId);
    if operation.recovered.Some? {
      MessageKept(ids, source, operation.recovered.value);
    }
    HeadRenamed(ids, source, RunKind, operation.runId);
    HeadRenamed(ids, source, RunKind, operation.conversationId);
    SlotImagesJoin(ids, source, home, run);
    SlotImagesJoin(ids, source, home + run, MessageSlotsIfAny(operation.recovered));
  }

  lemma InterruptKept(ids: Renaming, source: string, operation: Operation, after: Operation)
    requires operation.Interrupt? && Fields(ids, source, operation, after)
    ensures Kept(ids, source, operation, after)
  {
    HeadRenamed(ids, source, RunKind, operation.runId);
    HeadRenamed(ids, source, RunKind, operation.conversationId);
    SlotImagesJoin(ids, source, HomeSlots(operation.conversationId), OneSlot(RunKind, operation.runId));
  }

  lemma OwnedKept(ids: Renaming, source: string, operation: Operation, after: Operation)
    requires operation.Checkpoint? || operation.RecordOperation? || operation.Acquire?
    requires Fields(ids, source, operation, after)
    ensures Kept(ids, source, operation, after)
  {
    OwnedRenamed(ids, source, operation.conversationId, operation.runId, operation.ownerId,
                 after.conversationId, after.runId, after.ownerId);
    var owned := OwnedSlots(operation.conversationId, operation.runId, operation.ownerId);
    if operation.Checkpoint? {
      MessageKept(ids, source, operation.assistant);
      SlotImagesJoin(ids, source, owned, MessageSlots(operation.assistant));
    } else if operation.RecordOperation? {
      HeadRenamed(ids, source, OperationKind, operation.operation.operationId);
      SlotImagesJoin(ids, source, owned, OneSlot(OperationKind, operation.operation.operationId));
    }
  }

  lemma FieldsKept(ids: Renaming, source: string, operation: Operation, after: Operation)
    requires Fields(ids, source, operation, after)
    ensures Kept(ids, source, operation, after)
  {
    match operation
    case Accept(_, _, _, _, _) => AcceptKept(ids, source, operation, after);
    case Terminal(_, _, _, _, _, _) => TerminalKept(ids, source, operation, after);
    case Compact(_, _, _, _) => CompactKept(ids, source, operation, after);
    case Seed(_, _, _, _) => SeedKept(ids, source, operation, after);
    case Recover(_, _, _, _, _) => RecoverKept(ids, source, operation, after);
    case Interrupt(_, _, _) => InterruptKept(ids, source, operation, after);
    case _ => OwnedKept(ids, source, operation, after);
  }

  lemma TransitionKept(ids: Renaming, source: string, operation: Operation)
    requires RekeyTransition(ids, source, operation).Success?
    ensures Kept(ids, source, operation, RekeyTransition(ids, source, operation).value)
  {
    FieldsRekeyed(ids, source, operation);
    FieldsKept(ids, source, operation, RekeyTransition(ids, source, operation).value);
  }

  // ---- baselines --------------------------------------------------------------------------------

  function BlankStoredRun(record: StoredRun): StoredRun {
    StoredRun(BlankRun(record.run), BlankIfAny(BlankMessage, record.terminal))
  }

  function BlankAdmission(receipt: Admission): Admission {
    Admission("", "", BlankMessage(receipt.input), "", "")
  }

  function BlankList(list: seq<string>): seq<string> {
    AllBlank(Blanked, list)
  }

  function BlankBaseline(baseline: Baseline): Baseline {
    Baseline("", AllBlank(BlankMessage, baseline.messages), BlankIfAny(BlankList, baseline.compacted),
             AllBlank(BlankStoredRun, baseline.runs), AllBlank(BlankAdmission, baseline.admissions), baseline.facts)
  }

  function StoredRunSlots(record: StoredRun): seq<Slot> {
    RunSlots(record.run) + MessageSlotsIfAny(record.terminal)
  }

  function AdmissionSlots(receipt: Admission): seq<Slot> {
    HomeSlots(receipt.conversationId) + OneSlot(KeyKind, receipt.idempotencyKey) + MessageSlots(receipt.input)
    + OneSlot(RunKind, receipt.runId) + OneSlot(MessageKind, receipt.assistantMessageId)
  }

  function CompactedSlots(compacted: Option<seq<string>>): seq<Slot> {
    if compacted.Some? then SlotsOf(MessageKind, compacted.value) else []
  }

  function BaselineSlots(baseline: Baseline): seq<Slot> {
    HomeSlots(baseline.conversationId) + AllSlots(MessageSlots, baseline.messages) + CompactedSlots(baseline.compacted)
    + AllSlots(StoredRunSlots, baseline.runs) + AllSlots(AdmissionSlots, baseline.admissions)
  }

  predicate KeepsStoredRun(record: StoredRun) {
    record.terminal.Some? ==> KeepsMessage(record.terminal.value)
  }

  predicate KeepsAdmission(receipt: Admission) {
    KeepsMessage(receipt.input)
  }

  predicate KeepsBaseline(baseline: Baseline) {
    && (forall message | message in baseline.messages :: KeepsMessage(message))
    && (forall record | record in baseline.runs :: KeepsStoredRun(record))
    && (forall receipt | receipt in baseline.admissions :: KeepsAdmission(receipt))
  }

  lemma StoredRunKept(ids: Renaming, source: string, record: StoredRun)
    requires BranchStoredRun(ids, source, record).Success?
    ensures var after := BranchStoredRun(ids, source, record).value;
            && (BlankStoredRun(after) == BlankStoredRun(record) <==> KeepsStoredRun(record))
            && StoredRunSlots(after) == SlotImages(ids, source, StoredRunSlots(record))
  {
    RunKept(ids, source, record.run);
    if record.terminal.Some? {
      MessageKept(ids, source, record.terminal.value);
    }
    SlotImagesJoin(ids, source, RunSlots(record.run), MessageSlotsIfAny(record.terminal));
  }

  lemma AdmissionKept(ids: Renaming, source: string, receipt: Admission)
    requires BranchAdmission(ids, source, receipt).Success?
    ensures var after := BranchAdmission(ids, source, receipt).value;
            && (BlankAdmission(after) == BlankAdmission(receipt) <==> KeepsAdmission(receipt))
            && AdmissionSlots(after) == SlotImages(ids, source, AdmissionSlots(receipt))
  {
    MessageKept(ids, source, receipt.input);
    HeadRenamed(ids, source, KeyKind, receipt.idempotencyKey);
    HeadRenamed(ids, source, KeyKind, receipt.conversationId);
    HeadRenamed(ids, source, RunKind, receipt.runId);
    HeadRenamed(ids, source, MessageKind, receipt.assistantMessageId);
    JoinedFive(ids, source, HomeSlots(receipt.conversationId), OneSlot(KeyKind, receipt.idempotencyKey),
               MessageSlots(receipt.input),
               OneSlot(RunKind, receipt.runId), OneSlot(MessageKind, receipt.assistantMessageId));
  }

  lemma StoredRunsKept(ids: Renaming, source: string, runs: seq<StoredRun>)
    requires Traverse(StoredRuns(ids, source), runs).Success?
    ensures var after := Traverse(StoredRuns(ids, source), runs).value;
            && (AllBlank(BlankStoredRun, after) == AllBlank(BlankStoredRun, runs) <==>
                  forall record | record in runs :: KeepsStoredRun(record))
            && AllSlots(StoredRunSlots, after) == SlotImages(ids, source, AllSlots(StoredRunSlots, runs))
  {
    var after := Traverse(StoredRuns(ids, source), runs).value;
    forall i | 0 <= i < |runs|
      ensures BlankStoredRun(after[i]) == BlankStoredRun(runs[i]) <==> KeepsStoredRun(runs[i])
      ensures StoredRunSlots(after[i]) == SlotImages(ids, source, StoredRunSlots(runs[i]))
    {
      StoredRunKept(ids, source, runs[i]);
    }
    ListKept(BlankStoredRun, KeepsStoredRun, runs, after);
    ListSlotsRenamed(ids, source, StoredRunSlots, runs, after);
  }

  lemma AdmissionsKept(ids: Renaming, source: string, admissions: seq<Admission>)
    requires Traverse(Admissions(ids, source), admissions).Success?
    ensures var after := Traverse(Admissions(ids, source), admissions).value;
            && (AllBlank(BlankAdmission, after) == AllBlank(BlankAdmission, admissions) <==>
                  forall receipt | receipt in admissions :: KeepsAdmission(receipt))
            && AllSlots(AdmissionSlots, after) == SlotImages(ids, source, AllSlots(AdmissionSlots, admissions))
  {
    var after := Traverse(Admissions(ids, source), admissions).value;
    forall i | 0 <= i < |admissions|
      ensures BlankAdmission(after[i]) == BlankAdmission(admissions[i]) <==> KeepsAdmission(admissions[i])
      ensures AdmissionSlots(after[i]) == SlotImages(ids, source, AdmissionSlots(admissions[i]))
    {
      AdmissionKept(ids, source, admissions[i]);
    }
    ListKept(BlankAdmission, KeepsAdmission, admissions, after);
    ListSlotsRenamed(ids, source, AdmissionSlots, admissions, after);
  }

  lemma CompactedKept(ids: Renaming, source: string, compacted: Option<seq<string>>)
    requires MessageListIfAny(ids, compacted).Success?
    ensures var after := MessageListIfAny(ids, compacted).value;
            && BlankIfAny(BlankList, after) == BlankIfAny(BlankList, compacted)
            && CompactedSlots(after) == SlotImages(ids, source, CompactedSlots(compacted))
  {
    if compacted.Some? {
      SlotsRenamed(ids, source, MessageKind, compacted.value);
      BlankedAlike(MessageListIfAny(ids, compacted).value.value, compacted.value);
    }
  }

  lemma BaselineRekeyed(ids: Renaming, source: string, baseline: Baseline)
    requires RekeyBaseline(ids, source, baseline).Success?
    ensures var after := RekeyBaseline(ids, source, baseline).value;
            && after.conversationId == ids.conversation && after.facts == baseline.facts
            && Traverse(Messages(ids, source), baseline.messages) == Success(after.messages)
            && MessageListIfAny(ids, baseline.compacted) == Success(after.compacted)
            && Traverse(StoredRuns(ids, source), baseline.runs) == Success(after.runs)
            && Traverse(Admissions(ids, source), baseline.admissions) == Success(after.admissions)
  {
  }

  lemma BaselineKept(ids: Renaming, source: string, baseline: Baseline)
    requires RekeyBaseline(ids, source, baseline).Success?
    ensures var after := RekeyBaseline(ids, source, baseline).value;
            && (BlankBaseline(after) == BlankBaseline(baseline) <==> KeepsBaseline(baseline))
            && BaselineSlots(after) == SlotImages(ids, source, BaselineSlots(baseline))
  {
    BaselineRekeyed(ids, source, baseline);
    MessagesKept(ids, source, baseline.messages);
    CompactedKept(ids, source, baseline.compacted);
    StoredRunsKept(ids, source, baseline.runs);
    AdmissionsKept(ids, source, baseline.admissions);
    HeadRenamed(ids, source, KeyKind, baseline.conversationId);
    JoinedFive(ids, source, HomeSlots(baseline.conversationId), AllSlots(MessageSlots, baseline.messages),
               CompactedSlots(baseline.compacted), AllSlots(StoredRunSlots, baseline.runs),
               AllSlots(AdmissionSlots, baseline.admissions));
  }
}
