// A branch of a whole log keeps what is not an identity, event by event (branch-events.ts).
module BranchWhole {
  import opened Prelude
  import opened BranchRenaming
  import opened BranchMessages
  import opened BranchTransitions
  import opened BranchBaseline
  import opened BranchObservations
  import opened BranchProvider
  import opened BranchEvents
  import opened BranchLogs
  import opened BranchSlots
  import opened BranchContents
  import opened BranchKept

  function ShaOf(digest: DraftDigest): string {
    match digest
    case DraftSha(sha256) => sha256
    case SourceSha(sha256) => sha256
  }

  /** Everything of a payload but its identities. A draft keeps its digest, which a branch marks as that of a
      source, and an observation stays one when it is wrapped. */
  function BlankPayload(payload: Payload): Payload {
    match payload
    case Transition(operation) => Transition(BlankTransition(operation))
    case Draft(_, _, _, _, digest, facts) => Draft("", "", "", "", SourceSha(ShaOf(digest)), facts)
    case Baselined(baseline) => Baselined(BlankBaseline(baseline))
    case Branched(_, _, facts) => Branched("", "", facts)
    case Provider(record) => Provider(BlankRecord(record))
    case Observed(_, observation) => Observed(true, BlankObservation(observation))
  }

  function PayloadSlots(payload: Payload): seq<Slot> {
    match payload
    case Transition(operation) => TransitionSlots(operation)
    case Draft(id, runId, ownerId, assistantId, _, _) => OwnedSlots(id, runId, ownerId) + OneSlot(MessageKind, assistantId)
    case Baselined(baseline) => BaselineSlots(baseline)
    case Branched(id, key, _) => HomeSlots(id) + OneSlot(KeyKind, key)
    case Provider(record) => RecordSlots(record)
    case Observed(_, observation) => ObservationSlots(observation)
  }

  predicate KeepsPayload(payload: Payload) {
    match payload
    case Transition(operation) => KeepsTransition(operation)
    case Baselined(baseline) => KeepsBaseline(baseline)
    case Provider(record) => KeepsRecord(record)
    case _ => true
  }

  /** What a branch marks as its own. */
  predicate Marked(payload: Payload) {
    (payload.Draft? ==> payload.digest.SourceSha?) && (payload.Observed? ==> payload.wrapped)
  }

  ghost predicate PayloadKeptAs(ids: Renaming, source: string, payload: Payload, after: Payload) {
    && (BlankPayload(after) == BlankPayload(payload) <==> KeepsPayload(payload))
    && PayloadSlots(after) == SlotImages(ids, source, PayloadSlots(payload))
    && Marked(after)
  }

  lemma DraftKept(ids: Renaming, source: string, draft: Payload, after: Operation)
    requires draft.Draft? && RekeyTransition(ids, source, DraftOperation(draft)) == Success(after)
    ensures after.Checkpoint?
    ensures PayloadKeptAs(ids, source, draft,
                          Draft(after.conversationId, after.runId, after.ownerId, after.assistant.id,
                                SourceSha(ShaOf(draft.digest)), draft.facts))
  {
    FieldsRekeyed(ids, source, DraftOperation(draft));
    OwnedRenamed(ids, source, draft.conversationId, draft.runId, draft.ownerId,
                 after.conversationId, after.runId, after.ownerId);
    HeadRenamed(ids, source, MessageKind, draft.assistantId);
    SlotImagesJoin(ids, source, OwnedSlots(draft.conversationId, draft.runId, draft.ownerId),
                   OneSlot(MessageKind, draft.assistantId));
  }

  lemma BranchedKept(ids: Renaming, source: string, id: string, key: string, facts: string)
    ensures PayloadKeptAs(ids, source, Branched(id, key, facts), Branched(ids.conversation, ids.mint(KeyKind, key), facts))
  {
    HeadRenamed(ids, source, KeyKind, key);
    HeadRenamed(ids, source, KeyKind, id);
    SlotImagesJoin(ids, source, HomeSlots(id), OneSlot(KeyKind, key));
  }

  lemma PayloadKept(hashes: Hashes, ids: Renaming, source: string, digests: map<string, string>, payload: Payload)
    requires RekeyPayload(hashes, ids, source, digests, payload).Success?
    ensures PayloadKeptAs(ids, source, payload, RekeyPayload(hashes, ids, source, digests, payload).value.0)
  {
    match payload
    case Transition(operation) => TransitionKept(ids, source, operation);
    case Draft(_, _, _, _, _, _) =>
      DraftKept(ids, source, payload, RekeyTransition(ids, source, DraftOperation(payload)).value);
    case Baselined(baseline) => BaselineKept(ids, source, baseline);
    case Branched(id, key, facts) => BranchedKept(ids, source, id, key, facts);
    case Provider(record) => RecordKept(hashes, ids, source, digests, record);
    case Observed(_, observation) => ObservationKept(ids, source, observation);
  }

  // ---- events and logs ----------------------------------------------------------------------------

  function BlankEvent(event: Event): Event {
    Event("", "", event.schemaVersion, event.exact, event.facts, BlankPayload(event.payload))
  }

  function EventSlots(event: Event): seq<Slot> {
    HomeSlots(event.conversationId) + OneSlot(EventKind, event.eventId) + PayloadSlots(event.payload)
  }

  /** The event is kept but for its identities exactly when nothing in it is rebuilt, and each identity is
      replaced by its own image, in its place. */
  ghost predicate EventKeptAs(ids: Renaming, source: string, event: Event, after: Event) {
    && (BlankEvent(after) == BlankEvent(event) <==> KeepsPayload(event.payload))
    && EventSlots(after) == SlotImages(ids, source, EventSlots(event))
    && Marked(after.payload)
  }

  lemma EventKept(hashes: Hashes, ids: Renaming, source: string, digests: map<string, string>, event: Event)
    requires RekeyEvent(hashes, ids, source, digests, event).Success?
    ensures EventKeptAs(ids, source, event, RekeyEvent(hashes, ids, source, digests, event).value.0)
  {
    PayloadKept(hashes, ids, source, digests, event.payload);
    HeadRenamed(ids, source, EventKind, event.eventId);
    HeadRenamed(ids, source, EventKind, event.conversationId);
    var home, id := HomeSlots(event.conversationId), OneSlot(EventKind, event.eventId);
    SlotImagesJoin(ids, source, home, id);
    SlotImagesJoin(ids, source, home + id, PayloadSlots(event.payload));
  }

  lemma LearningKeepsImages(ids: Renaming, more: Renaming, source: string, event: Event, after: Event)
    requires Extends(more, ids) && EventKeptAs(more, source, event, after)
    ensures EventKeptAs(ids, source, event, after)
  {
    assert SlotImages(ids, source, EventSlots(event)) == SlotImages(more, source, EventSlots(event));
  }

  lemma EventsKept(hashes: Hashes, ids: Renaming, source: string, events: seq<Event>)
    requires RekeyEvents(hashes, ids, source, events).Success?
    ensures var after := RekeyEvents(hashes, ids, source, events).value.0;
            |after| == |events| && forall i | 0 <= i < |events| :: EventKeptAs(ids, source, events[i], after[i])
  {
    var after := RekeyEvents(hashes, ids, source, events).value.0;
    SameNumber(hashes, ids, source, events);
    forall i | 0 <= i < |events| ensures EventKeptAs(ids, source, events[i], after[i]) {
      EventAt(hashes, ids, source, events, i);
      var now := Learn(ids, events[..i]);
      EventKept(hashes, now, source, RekeyEvents(hashes, ids, source, events[..i]).value.1, events[i]);
      LearningKeepsImages(ids, now, source, events[i], after[i]);
    }
  }

  /** An abandoned run that has lost its message gets the retained one back, and nothing else is filled in. */
  lemma HydrationFillsIn(retained: Retained, event: Event)
    ensures var whole := Hydrate(retained, event);
            if event.eventId in retained && Abandoned(event) then
              && whole.payload.Transition? && whole.payload.operation.Recover?
              && whole.payload.operation.recovered == Some(retained[event.eventId])
              && event == whole.(payload := Transition(whole.payload.operation.(recovered := None)))
            else whole == event
  {
  }

  /** A branched log keeps the number and the order of its events, the content of each, and every identity in
      its place under its new name. */
  lemma BranchKeepsLog(hashes: Hashes, mint: Mint, conversation: RecordId, spills: set<string>, retained: Retained,
                       source: string, events: seq<Event>)
    requires BranchLog(hashes, mint, conversation, spills, retained, source, events).Success?
    ensures var ids, whole := Renaming(conversation, mint, Collect(spills, retained, events)), HydrateAll(retained, events);
            var branch := BranchLog(hashes, mint, conversation, spills, retained, source, events).value;
            |branch| == |events| && forall i | 0 <= i < |events| :: EventKeptAs(ids, source, whole[i], branch[i])
  {
    EventsKept(hashes, Renaming(conversation, mint, Collect(spills, retained, events)), source, HydrateAll(retained, events));
  }
}
