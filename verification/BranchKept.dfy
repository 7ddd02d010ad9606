// A branch keeps what is not an identity, level by level: observations, provider messages and the records of
// a journal (branch-observations.ts, branch-provider.ts).
module BranchKept {
  import opened Prelude
  import opened BranchRenaming
  import opened BranchMessages
  import opened BranchObservations
  import opened BranchProvider
  import opened BranchSlots

  // ---- observations -----------------------------------------------------------------------------

  function ConversationSlots(id: Option<string>): seq<Slot> {
    if id.Some? then [ConversationSlot(id.value)] else []
  }

  function BlankObservation(observation: Observation): Observation {
    match observation
    case Durability(_, key, encoded, facts) => Durability("", BlankIfAny(Blanked, key), encoded, facts)
    case Inert(_) => observation
    case StateSet(_, _) => observation
    case Spilled(_, facts) => Spilled("", facts)
    case Scheduled(_, facts) => Scheduled("", facts)
    case ChildEvent(child, parent, budget, input, result, approval, childApproval, call, batch, facts) =>
      ChildEvent(BlankIfAny(Blanked, child), BlankIfAny(Blanked, parent), budget, input, BlankIfAny(Blanked, result),
                 BlankIfAny(Blanked, approval), BlankIfAny(Blanked, childApproval), BlankIfAny(Blanked, call),
                 BlankIfAny(Blanked, batch), facts)
    case Rejected(_, _, facts) => Rejected("", "", facts)
    case Unknown(_) => observation
  }

  function ObservationSlots(observation: Observation): seq<Slot> {
    match observation
    case Durability(runId, key, _, _) => OneSlot(RunKind, runId) + SlotIfAny(KeyKind, key)
    case Spilled(reference, _) => OneSlot(SpillKind, reference)
    case Scheduled(id, _) => OneSlot(ScheduleKind, id)
    case ChildEvent(child, parent, _, _, result, approval, childApproval, call, batch, _) =>
      ConversationSlots(child) + ConversationSlots(parent)
      + (SlotIfAny(SpillKind, result) + SlotIfAny(ApprovalKind, approval) + SlotIfAny(ApprovalKind, childApproval)
         + SlotIfAny(CallKind, call) + SlotIfAny(KeyKind, batch))
    case Rejected(approvalId, callId, _) => OneSlot(ApprovalKind, approvalId) + OneSlot(CallKind, callId)
    case _ => []
  }

  lemma ConversationRenamed(ids: Renaming, source: string, id: Option<string>)
    ensures var after := ConversationIfAny(ids, source, id);
            && ConversationSlots(after) == SlotImages(ids, source, ConversationSlots(id))
            && BlankIfAny(Blanked, after) == BlankIfAny(Blanked, id)
  {
  }

  lemma ChildEventKept(ids: Renaming, source: string, observation: Observation)
    requires observation.ChildEvent? && BranchObservation(ids, source, observation).Success?
    ensures var after := BranchObservation(ids, source, observation).value;
            && BlankObservation(after) == BlankObservation(observation)
            && ObservationSlots(after) == SlotImages(ids, source, ObservationSlots(observation))
  {
    var o := observation;
    ConversationRenamed(ids, source, o.child);
    ConversationRenamed(ids, source, o.parent);
    IfAnyRenamed(ids, source, SpillKind, o.resultReference);
    IfAnyRenamed(ids, source, ApprovalKind, o.approvalId);
    IfAnyRenamed(ids, source, ApprovalKind, o.childApprovalId);
    IfAnyRenamed(ids, source, CallKind, o.callId);
    IfAnyRenamed(ids, source, KeyKind, o.batchId);
    JoinedFive(ids, source, SlotIfAny(SpillKind, o.resultReference), SlotIfAny(ApprovalKind, o.approvalId),
               SlotIfAny(ApprovalKind, o.childApprovalId), SlotIfAny(CallKind, o.callId), SlotIfAny(KeyKind, o.batchId));
    var named := SlotIfAny(SpillKind, o.resultReference) + SlotIfAny(ApprovalKind, o.approvalId)
                 + SlotIfAny(ApprovalKind, o.childApprovalId) + SlotIfAny(CallKind, o.callId) + SlotIfAny(KeyKind, o.batchId);
    SlotImagesJoin(ids, source, ConversationSlots(o.child), ConversationSlots(o.parent));
    SlotImagesJoin(ids, source, ConversationSlots(o.child) + ConversationSlots(o.parent), named);
  }

  /** An observation keeps everything but its identities. A conversation it names becomes the branch where it
      was the source, and is renamed like a child otherwise. */
  lemma ObservationKept(ids: Renaming, source: string, observation: Observation)
    requires BranchObservation(ids, source, observation).Success?
    ensures var after := BranchObservation(ids, source, observation).value;
            && BlankObservation(after) == BlankObservation(observation)
            && ObservationSlots(after) == SlotImages(ids, source, ObservationSlots(observation))
  {
    match observation
    case Durability(runId, key, _, _) =>
      HeadRenamed(ids, source, RunKind, runId);
      IfAnyRenamed(ids, source, KeyKind, key);
      SlotImagesJoin(ids, source, OneSlot(RunKind, runId), SlotIfAny(KeyKind, key));
    case Spilled(reference, _) => HeadRenamed(ids, source, SpillKind, reference);
    case Scheduled(id, _) => HeadRenamed(ids, source, ScheduleKind, id);
    case ChildEvent(_, _, _, _, _, _, _, _, _, _) => ChildEventKept(ids, source, observation);
    case Rejected(approvalId, callId, _) =>
      HeadRenamed(ids, source, ApprovalKind, approvalId);
      HeadRenamed(ids, source, CallKind, callId);
      SlotImagesJoin(ids, source, OneSlot(ApprovalKind, approvalId), OneSlot(CallKind, callId));
    case _ =>
  }

  // ---- provider messages ----------------------------------------------------------------------------

  function BlankOutput(toolName: string, output: ToolOutput): ToolOutput {
    match output
    case JsonOutput(value, options) => JsonOutput(BlankToolJson(toolName, value, true), options)
    case _ => output
  }

  /** Everything of a content part but its identities. */
  function BlankContent(content: Content): Content {
    match content
    case PlainContent(_, _, _, _) => content
    case CallContent(_, toolName, input, facts, options) =>
      CallContent("", toolName, BlankToolJson(toolName, input, false), facts, options)
    case ResultContent(_, toolName, output, options) => ResultContent("", toolName, BlankOutput(toolName, output), options)
    case RequestContent(_, _, reason, facts) => RequestContent("", "", reason, facts)
    case ResponseContent(_, facts) => ResponseContent("", facts)
  }

  function OutputSlots(toolName: string, output: ToolOutput): seq<Slot> {
    if output.JsonOutput? then ToolJsonSlots(toolName, output.value, true) else []
  }

  function ContentSlots(content: Content): seq<Slot> {
    match content
    case PlainContent(_, _, _, _) => []
    case CallContent(callId, toolName, input, _, _) => OneSlot(CallKind, callId) + ToolJsonSlots(toolName, input, false)
    case ResultContent(callId, toolName, output, _) => OneSlot(CallKind, callId) + OutputSlots(toolName, output)
    case RequestContent(approvalId, callId, _, _) => OneSlot(ApprovalKind, approvalId) + OneSlot(CallKind, callId)
    case ResponseContent(approvalId, _) => OneSlot(ApprovalKind, approvalId)
  }

  /** An approval request is rebuilt from its identities and its reason alone. */
  predicate KeepsContent(content: Content) {
    content.RequestContent? ==> content.facts == ""
  }

  lemma OutputKept(ids: Renaming, source: string, toolName: string, output: ToolOutput)
    requires BranchOutput(ids, toolName, output).Success?
    ensures var after := BranchOutput(ids, toolName, output).value;
            && BlankOutput(toolName, after) == BlankOutput(toolName, output)
            && OutputSlots(toolName, after) == SlotImages(ids, source, OutputSlots(toolName, output))
  {
    if output.JsonOutput? {
      BlankToolJsonKept(ids, toolName, output.value, true);
      ToolJsonSlotsRenamed(ids, source, toolName, output.value, true);
    }
  }

  lemma ContentKept(ids: Renaming, source: string, content: Content)
    requires BranchContent(ids, content).Success?
    ensures var after := BranchContent(ids, content).value;
            && (BlankContent(after) == BlankContent(content) <==> KeepsContent(content))
            && ContentSlots(after) == SlotImages(ids, source, ContentSlots(content))
  {
    match content
    case PlainContent(_, _, _, _) =>
    case CallContent(callId, toolName, input, _, _) =>
      BlankToolJsonKept(ids, toolName, input, false);
      ToolJsonSlotsRenamed(ids, source, toolName, input, false);
      HeadRenamed(ids, source, CallKind, callId);
      SlotImagesJoin(ids, source, OneSlot(CallKind, callId), ToolJsonSlots(toolName, input, false));
    case ResultContent(callId, toolName, output, _) =>
      OutputKept(ids, source, toolName, output);
      HeadRenamed(ids, source, CallKind, callId);
      SlotImagesJoin(ids, source, OneSlot(CallKind, callId), OutputSlots(toolName, output));
    case RequestContent(approvalId, callId, _, _) =>
      HeadRenamed(ids, source, ApprovalKind, approvalId);
      HeadRenamed(ids, source, CallKind, callId);
      SlotImagesJoin(ids, source, OneSlot(ApprovalKind, approvalId), OneSlot(CallKind, callId));
    case ResponseContent(approvalId, _) => HeadRenamed(ids, source, ApprovalKind, approvalId);
  }

  function BlankProviderMessage(message: ProviderMessage): ProviderMessage {
    match message.body
    case TextBody(_) => message
    case PartsBody(content) => ProviderMessage(message.role, PartsBody(AllBlank(BlankContent, content)), message.options)
  }

  function ProviderMessageSlots(message: ProviderMessage): seq<Slot> {
    if message.body.PartsBody? then AllSlots(ContentSlots, message.body.content) else []
  }

  predicate KeepsProviderMessage(message: ProviderMessage) {
    message.body.PartsBody? ==> forall content | content in message.body.content :: KeepsContent(content)
  }

  /** A provider message keeps its role, its texts, its parts in their number and order and all they hold but
      identities, exactly when no approval request in it has facts that are dropped. */
  lemma ProviderMessageKept(ids: Renaming, source: string, message: ProviderMessage)
    requires BranchProviderMessage(ids, message).Success?
    ensures var after := BranchProviderMessage(ids, message).value;
            && (BlankProviderMessage(after) == BlankProviderMessage(message) <==> KeepsProviderMessage(message))
            && ProviderMessageSlots(after) == SlotImages(ids, source, ProviderMessageSlots(message))
  {
    if message.body.PartsBody? {
      var content, after := message.body.content, BranchProviderMessage(ids, message).value.body.content;
      forall i | 0 <= i < |content|
        ensures BlankContent(after[i]) == BlankContent(content[i]) <==> KeepsContent(content[i])
        ensures ContentSlots(after[i]) == SlotImages(ids, source, ContentSlots(content[i]))
      {
        ContentKept(ids, source, content[i]);
      }
      ListKept(BlankContent, KeepsContent, content, after);
      ListSlotsRenamed(ids, source, ContentSlots, content, after);
    }
  }

  // ---- the records of a journal -----------------------------------------------------------------------

  /** Everything of a record but identities and digests. */
  function BlankRecord(record: Record): Record {
    match record
    case MessageRecord(_, message) => MessageRecord("", BlankProviderMessage(message))
    case RequestRecord(_, instructions, shas, _, facts) => RequestRecord("", instructions, AllBlank(Blanked, shas), "", facts)
    case ResponseRecord(_, facts) => ResponseRecord("", facts)
  }

  function RecordSlots(record: Record): seq<Slot> {
    match record
    case MessageRecord(_, message) => ProviderMessageSlots(message)
    case RequestRecord(runId, _, _, _, _) => OneSlot(RunKind, runId)
    case ResponseRecord(runId, _) => OneSlot(RunKind, runId)
  }

  predicate KeepsRecord(record: Record) {
    record.MessageRecord? ==> KeepsProviderMessage(record.message)
  }

  lemma RecordKept(hashes: Hashes, ids: Renaming, source: string, digests: map<string, string>, record: Record)
    requires Rekey(hashes, ids, digests, record).Success?
    ensures var after := Rekey(hashes, ids, digests, record).value.0;
            && (BlankRecord(after) == BlankRecord(record) <==> KeepsRecord(record))
            && RecordSlots(after) == SlotImages(ids, source, RecordSlots(record))
  {
    match record
    case MessageRecord(_, message) => ProviderMessageKept(ids, source, message);
    case RequestRecord(runId, _, shas, _, _) =>
      HeadRenamed(ids, source, RunKind, runId);
      BlankedAlike(Traverse(Relink(digests), shas).value, shas);
    case ResponseRecord(runId, _) => HeadRenamed(ids, source, RunKind, runId);
  }

  /** A link of the rewritten journal holds the digest of the renamed message that the link names. */
  ghost predicate LinksFollow(hashes: Hashes, ids: Renaming, before: seq<Record>, record: Record, after: Record) {
    record.RequestRecord? && after.RequestRecord? ==>
      && |after.messageShas| == |record.messageShas|
      && forall k | 0 <= k < |record.messageShas| ::
           && Named(before, record.messageShas[k]).Some?
           && var renamed := BranchProviderMessage(ids, Named(before, record.messageShas[k]).value);
              renamed.Success? && after.messageShas[k] == hashes.message(renamed.value)
  }

  lemma LinksAreFollowed(hashes: Hashes, ids: Renaming, before: seq<Record>, start: seq<Record>, digests: map<string, string>,
                         record: Record)
    requires Linked(hashes, ids, before, start, digests) && Rekey(hashes, ids, digests, record).Success?
    ensures LinksFollow(hashes, ids, before, record, Rekey(hashes, ids, digests, record).value.0)
  {
    if record.RequestRecord? {
      var targets := Traverse(Relink(digests), record.messageShas).value;
      forall k | 0 <= k < |record.messageShas|
        ensures record.messageShas[k] in digests && targets[k] == digests[record.messageShas[k]]
      {
        assert Relink(digests)(record.messageShas[k]).Success?;
      }
    }
  }

  /** Record by record a journal keeps its content and its order; its identities are replaced by their images,
      and its links lead to the digests of the renamed messages. */
  lemma JournalKept(hashes: Hashes, ids: Renaming, source: string, records: seq<Record>, i: nat)
    requires RekeyJournal(hashes, ids, records).Success? && i < |records|
    ensures var after := RekeyJournal(hashes, ids, records).value.0;
            && |after| == |records|
            && (BlankRecord(after[i]) == BlankRecord(records[i]) <==> KeepsRecord(records[i]))
            && RecordSlots(after[i]) == SlotImages(ids, source, RecordSlots(records[i]))
            && LinksFollow(hashes, ids, records[..i], records[i], after[i])
            && RecordConsistent(hashes, after, i)
  {
    RecordAt(hashes, ids, records, i);
    JournalLinks(hashes, ids, records);
    JournalLinks(hashes, ids, records[..i]);
    var (start, digests) := RekeyJournal(hashes, ids, records[..i]).value;
    RecordKept(hashes, ids, source, digests, records[i]);
    LinksAreFollowed(hashes, ids, records[..i], start, digests, records[i]);
  }
}
