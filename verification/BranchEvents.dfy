// Rewriting the events of a log in order (branch-events.ts). What an event may refer to is what was
// collected beforehand and what observations before it have defined.
module BranchEvents {
  import opened Prelude
  import opened BranchRenaming
  import opened BranchMessages
  import opened BranchTransitions
  import opened BranchBaseline
  import opened BranchObservations
  import opened BranchProvider

  /** A hash-only checkpoint says whose digest it carries: its own draft's, or a source's. */
  datatype DraftDigest = DraftSha(sha256: string) | SourceSha(sha256: string)

  /** An observation is `wrapped` once it is stored as `runtime/branch-observation`. */
  datatype Payload =
    | Transition(operation: Operation)
    | Draft(conversationId: string, runId: string, ownerId: string, assistantId: string,
            digest: DraftDigest, facts: string)
    | Baselined(baseline: Baseline)
    | Branched(conversationId: string, requestKey: string, facts: string)
    | Provider(record: Record)
    | Observed(wrapped: bool, observation: Observation)

  /** `facts` stands for sequence number, kind, time and flags of the envelope, `exact` for the payload
      parsing with its schema and having no field that the schema does not read. */
  datatype Event = Event(eventId: string, conversationId: string, schemaVersion: int, exact: bool, facts: string,
                         payload: Payload)

  /** `branchTransition` of a hash-only checkpoint: a streaming assistant without parts. */
  function DraftOperation(draft: Payload): Operation
    requires draft.Draft?
  {
    Checkpoint(draft.conversationId, draft.runId, draft.ownerId,
               Message(draft.assistantId, draft.conversationId, Some(draft.runId), [], None, draft.facts),
               draft.facts)
  }

  function RekeyPayload(hashes: Hashes, ids: Renaming, source: string, digests: map<string, string>, payload: Payload)
    : Result<(Payload, map<string, string>), Reason>
  {
    match payload
    case Transition(operation) =>
      var after :- RekeyTransition(ids, source, operation);
      Success((Transition(after), digests))
    case Draft(_, _, _, _, digest, facts) =>
      var after :- RekeyTransition(ids, source, DraftOperation(payload));
      Success((Draft(after.conversationId, after.runId, after.ownerId, after.assistant.id,
                     SourceSha(digest.sha256), facts), digests))
    case Baselined(baseline) =>
      var after :- RekeyBaseline(ids, source, baseline);
      Success((Baselined(after), digests))
    case Branched(_, requestKey, facts) =>
      Success((Branched(ids.conversation, ids.Define(KeyKind, requestKey), facts), digests))
    case Provider(record) =>
      var after :- Rekey(hashes, ids, digests, record);
      Success((Provider(after.0), after.1))
    case Observed(_, observation) =>
      var after :- BranchObservation(ids, source, observation);
      Success((Observed(true, after), digests))
  }

  /** `rekeyBranchEvent` */
  function RekeyEvent(hashes: Hashes, ids: Renaming, source: string, digests: map<string, string>, event: Event)
    : Result<(Event, map<string, string>), Reason>
  {
    var eventId :- ids.Reference(EventKind, event.eventId);
    if !event.exact then Failure(UnreadPayload) else
    var after :- RekeyPayload(hashes, ids, source, digests, event.payload);
    Success((Event(eventId, ids.conversation, event.schemaVersion, true, event.facts, after.0), after.1))
  }

  function EventLearns(event: Event): set<Identity> {
    if event.payload.Observed? then ObservationLearns(event.payload.observation) else {}
  }

  /** The renaming as it stands behind these events. */
  ghost function Learn(ids: Renaming, events: seq<Event>): Renaming {
    Renaming(ids.conversation, ids.mint, ids.defined + AllIds(EventLearns, events))
  }

  ghost function RekeyEvents(hashes: Hashes, ids: Renaming, source: string, events: seq<Event>)
    : Result<(seq<Event>, map<string, string>), Reason>
  {
    if events == [] then Success(([], map[])) else
      var init := events[..|events| - 1];
      var before :- RekeyEvents(hashes, ids, source, init);
      var last :- RekeyEvent(hashes, Learn(ids, init), source, before.1, events[|events| - 1]);
      Success((before.0 + [last.0], last.1))
  }

  ghost function PayloadDefinitions(payload: Payload): set<Identity> {
    match payload
    case Transition(operation) => OperationDefinitions(operation)
    case Draft(_, _, _, _, _, _) => OperationDefinitions(DraftOperation(payload))
    case Baselined(baseline) => BaselineDefinitions(baseline)
    case _ => {}
  }

  /** `collectBranchEvent` */
  ghost function EventDefinitions(event: Event): set<Identity> {
    {(EventKind, event.eventId)} + PayloadDefinitions(event.payload)
  }

  lemma LastEvent(hashes: Hashes, ids: Renaming, source: string, events: seq<Event>)
    requires events != [] && RekeyEvents(hashes, ids, source, events).Success?
    ensures var before := RekeyEvents(hashes, ids, source, events[..|events| - 1]);
            && before.Success?
            && var last := RekeyEvent(hashes, Learn(ids, events[..|events| - 1]), source, before.value.1,
                                    events[|events| - 1]);
               && last.Success?
               && RekeyEvents(hashes, ids, source, events) == Success((before.value.0 + [last.value.0], last.value.1))
  {
  }

  /** What the rewriting does at one place. */
  ghost predicate RewrittenAt(hashes: Hashes, ids: Renaming, source: string, events: seq<Event>, after: seq<Event>, i: nat)
    requires i < |events| == |after|
  {
    var before := RekeyEvents(hashes, ids, source, events[..i]);
    && before.Success? && before.value.0 == after[..i]
    && var result := RekeyEvent(hashes, Learn(ids, events[..i]), source, before.value.1, events[i]);
       result.Success? && result.value.0 == after[i]
  }

  lemma {:induction false} EventAt(hashes: Hashes, ids: Renaming, source: string, events: seq<Event>, i: nat)
    requires i < |events| && RekeyEvents(hashes, ids, source, events).Success?
    ensures var after := RekeyEvents(hashes, ids, source, events).value.0;
            |after| == |events| && RewrittenAt(hashes, ids, source, events, after, i)
  {
    RewrittenLast(hashes, ids, source, events);
    if i < |events| - 1 {
      EventAt(hashes, ids, source, events[..|events| - 1], i);
      RewrittenLater(hashes, ids, source, events, RekeyEvents(hashes, ids, source, events).value.0, i);
    }
  }

  lemma RewrittenLast(hashes: Hashes, ids: Renaming, source: string, events: seq<Event>)
    requires events != [] && RekeyEvents(hashes, ids, source, events).Success?
    ensures var init, after := events[..|events| - 1], RekeyEvents(hashes, ids, source, events).value.0;
            && |after| == |events| && RewrittenAt(hashes, ids, source, events, after, |events| - 1)
            && RekeyEvents(hashes, ids, source, init).Success?
            && RekeyEvents(hashes, ids, source, init).value.0 == after[..|events| - 1]
  {
    LastEvent(hashes, ids, source, events);
    SameNumber(hashes, ids, source, events[..|events| - 1]);
  }

  lemma RewrittenLater(hashes: Hashes, ids: Renaming, source: string, events: seq<Event>, after: seq<Event>, i: nat)
    requires i < |events| - 1 && |after| == |events|
    requires RewrittenAt(hashes, ids, source, events[..|events| - 1], after[..|events| - 1], i)
    ensures RewrittenAt(hashes, ids, source, events, after, i)
  {
    assert events[..|events| - 1][..i] == events[..i] && after[..|events| - 1][..i] == after[..i];
  }

  lemma {:induction false} SameNumber(hashes: Hashes, ids: Renaming, source: string, events: seq<Event>)
    requires RekeyEvents(hashes, ids, source, events).Success?
    ensures |RekeyEvents(hashes, ids, source, events).value.0| == |events|
  {
    if events != [] {
      SameNumber(hashes, ids, source, events[..|events| - 1]);
    }
  }

  // ---- the provider journal inside a log --------------------------------------------------

  function Journal(events: seq<Event>): seq<Record> {
    if events == [] then [] else
      var last := events[|events| - 1];
      Journal(events[..|events| - 1]) + (if last.payload.Provider? then [last.payload.record] else [])
  }

  lemma JournalSnoc(events: seq<Event>, last: Event)
    ensures Journal(events + [last]) ==
              Journal(events) + (if last.payload.Provider? then [last.payload.record] else [])
  {
    assert (events + [last])[..|events|] == events;
  }

  lemma LearnLast(ids: Renaming, events: seq<Event>)
    requires events != []
    ensures Extends(Learn(ids, events), Learn(ids, events[..|events| - 1]))
  {
    assert forall event :: event in events[..|events| - 1] ==> event in events;
  }

  lemma EventProjects(hashes: Hashes, ids: Renaming, source: string, events: seq<Event>, start: seq<Event>,
                      digests: map<string, string>)
    requires events != []
    requires var init := events[..|events| - 1];
             && RekeyJournal(hashes, Learn(ids, init), Journal(init)) == Success((Journal(start), digests))
             && RekeyEvent(hashes, Learn(ids, init), source, digests, events[|events| - 1]).Success?
    ensures var before := Learn(ids, events[..|events| - 1]);
            var (last', digests') := RekeyEvent(hashes, before, source, digests, events[|events| - 1]).value;
            RekeyJournal(hashes, Learn(ids, events), Journal(events)) == Success((Journal(start + [last']), digests'))
  {
    var init, last := events[..|events| - 1], events[|events| - 1];
    var before, more := Learn(ids, init), Learn(ids, events);
    var (last', digests') := RekeyEvent(hashes, before, source, digests, last).value;
    EventRecord(hashes, before, source, digests, last);
    LearnLast(ids, events);
    JournalExtends(hashes, more, before, Journal(init));
    if last.payload.Provider? {
      RecordExtends(hashes, more, before, digests, last.payload.record);
    }
    JournalSnoc(start, last');
    JournalStep(hashes, more, Journal(init), Journal(start), digests, last.payload, last'.payload, digests');
  }

  /** What an event does to the digests. */
  lemma EventRecord(hashes: Hashes, ids: Renaming, source: string, digests: map<string, string>, event: Event)
    requires RekeyEvent(hashes, ids, source, digests, event).Success?
    ensures var (after, digests') := RekeyEvent(hashes, ids, source, digests, event).value;
            && event.payload.Provider? == after.payload.Provider?
            && if event.payload.Provider?
               then Rekey(hashes, ids, digests, event.payload.record) == Success((after.payload.record, digests'))
               else digests' == digests
  {
  }

  lemma JournalStep(hashes: Hashes, ids: Renaming, records: seq<Record>, start: seq<Record>,
                    digests: map<string, string>, payload: Payload, after: Payload, digests': map<string, string>)
    requires RekeyJournal(hashes, ids, records) == Success((start, digests))
    requires payload.Provider? == after.Provider?
    requires if payload.Provider? then Rekey(hashes, ids, digests, payload.record) == Success((after.record, digests'))
             else digests' == digests
    ensures RekeyJournal(hashes, ids, records + (if payload.Provider? then [payload.record] else []))
              == Success((start + (if after.Provider? then [after.record] else []), digests'))
  {
    if payload.Provider? {
      assert (records + [payload.record])[..|records|] == records;
    } else {
      assert records + [] == records && start + [] == start;
    }
  }

  /** The provider records of a log are rewritten as a journal of their own, with all that the log
      defines on the way. */
  ghost predicate Projects(hashes: Hashes, ids: Renaming, source: string, events: seq<Event>)
    requires RekeyEvents(hashes, ids, source, events).Success?
  {
    var (after, digests) := RekeyEvents(hashes, ids, source, events).value;
    && |after| == |events|
    && RekeyJournal(hashes, Learn(ids, events), Journal(events)) == Success((Journal(after), digests))
  }

  lemma {:induction false} EventsProject(hashes: Hashes, ids: Renaming, source: string, events: seq<Event>)
    requires RekeyEvents(hashes, ids, source, events).Success?
    ensures Projects(hashes, ids, source, events)
  {
    if events != [] {
      var init := events[..|events| - 1];
      LastEvent(hashes, ids, source, events);
      EventsProject(hashes, ids, source, init);
      var (start, digests) := RekeyEvents(hashes, ids, source, init).value;
      EventProjects(hashes, ids, source, events, start, digests);
    }
  }

  // ---- when a log can be branched -----------------------------------------------------------

  ghost function EventIds(event: Event): set<Identity> {
    {(EventKind, event.eventId)} +
    match event.payload
    case Transition(operation) => OperationIds(operation)
    case Draft(_, _, _, _, _, _) => OperationIds(DraftOperation(event.payload))
    case Baselined(baseline) => BaselineIds(baseline)
    case Branched(_, _, _) => {}
    case Provider(record) => RecordIds(record)
    case Observed(_, observation) => ObservationIds(observation)
  }

  predicate EventAccepted(source: string, event: Event) {
    && event.exact
    && match event.payload
       case Transition(operation) => OperationAccepted(source, operation)
       case Draft(_, _, _, _, _, _) => OperationAccepted(source, DraftOperation(event.payload))
       case Baselined(baseline) => BaselineAccepted(source, baseline)
       case Branched(_, _, _) => true
       case Provider(record) => RecordAccepted(record)
       case Observed(_, observation) => ObservationAccepted(observation)
  }

  ghost predicate LogAccepted(hashes: Hashes, source: string, events: seq<Event>) {
    Consistent(hashes, Journal(events)) && forall event | event in events :: EventAccepted(source, event)
  }

  /** Every event refers to what was collected or what an observation before it has defined. */
  ghost predicate Known(ids: Renaming, events: seq<Event>) {
    forall i | 0 <= i < |events| :: EventIds(events[i]) <= Learn(ids, events[..i]).defined
  }

  lemma KnownSnoc(ids: Renaming, before: seq<Event>, last: Event)
    ensures Known(ids, before + [last]) <==> Known(ids, before) && EventIds(last) <= Learn(ids, before).defined
  {
    var events := before + [last];
    assert events[..|before|] == before && events[|before|] == last;
    assert forall i | 0 <= i < |before| :: events[..i] == before[..i] && events[i] == before[i];
    if Known(ids, events) {
      forall i | 0 <= i < |before| ensures EventIds(before[i]) <= Learn(ids, before[..i]).defined {
        assert EventIds(events[i]) <= Learn(ids, events[..i]).defined;
      }
    }
  }

  /** A log is rewritten exactly when its journal is consistent, its events are acceptable and all
      they refer to is known at their place. */
  lemma {:induction false} EventsResolve(hashes: Hashes, ids: Renaming, source: string, events: seq<Event>)
    ensures RekeyEvents(hashes, ids, source, events).Success? <==>
              LogAccepted(hashes, source, events) && Known(ids, events)
  {
    if events == [] {
      assert Journal(events) == [];
    } else {
      var before, last := events[..|events| - 1], events[|events| - 1];
      EventsResolve(hashes, ids, source, before);
      assert events == before + [last];
      assert forall event :: event in events <==> event in before || event == last;
      KnownSnoc(ids, before, last);
      JournalConsistentSnoc(hashes, before, last);
      if RekeyEvents(hashes, ids, source, before).Success? {
        EventsProject(hashes, ids, source, before);
        var (start, digests) := RekeyEvents(hashes, ids, source, before).value;
        EventResolves(hashes, Learn(ids, before), source, before, Journal(start), digests, last);
      }
    }
  }

  lemma JournalConsistentSnoc(hashes: Hashes, before: seq<Event>, last: Event)
    ensures Consistent(hashes, Journal(before + [last])) <==>
              Consistent(hashes, Journal(before))
              && (last.payload.Provider? ==>
                    RecordConsistent(hashes, Journal(before) + [last.payload.record], |Journal(before)|))
  {
    JournalSnoc(before, last);
    if last.payload.Provider? {
      var records := Journal(before) + [last.payload.record];
      ConsistentPrefix(hashes, records);
      assert records[..|records| - 1] == Journal(before);
    } else {
      assert Journal(before + [last]) == Journal(before);
    }
  }

  lemma EventResolves(hashes: Hashes, ids: Renaming, source: string, before: seq<Event>, start: seq<Record>,
                      digests: map<string, string>, event: Event)
    requires RekeyJournal(hashes, ids, Journal(before)) == Success((start, digests))
    ensures RekeyEvent(hashes, ids, source, digests, event).Success? <==>
              && EventAccepted(source, event) && EventIds(event) <= ids.defined
              && (event.payload.Provider? ==>
                    RecordConsistent(hashes, Journal(before) + [event.payload.record], |Journal(before)|))
  {
    match event.payload
    case Transition(operation) => TransitionResolves(ids, source, operation);
    case Draft(_, _, _, _, _, _) => TransitionResolves(ids, source, DraftOperation(event.payload));
    case Baselined(baseline) => BaselineResolves(ids, source, baseline);
    case Branched(_, _, _) =>
    case Provider(record) =>
      JournalLinks(hashes, ids, Journal(before));
      RecordResolves(hashes, ids, Journal(before), start, digests, record);
    case Observed(_, observation) => ObservationResolves(ids, source, observation);
  }

  // ---- what a rewritten event says ----------------------------------------------------------

  /** It belongs to the branch, and it refers to, defines and teaches exactly the images. */
  ghost predicate Renames(ids: Renaming, event: Event, after: Event) {
    && after.conversationId == ids.conversation && after.schemaVersion == event.schemaVersion
    && after.eventId == ids.mint(EventKind, event.eventId)
    && EventAccepted(ids.conversation, after)
    && EventIds(after) == ids.Images(EventIds(event))
    && EventDefinitions(after) == ids.Images(EventDefinitions(event))
    && EventLearns(after) == ids.Images(EventLearns(event))
  }

  lemma TransitionRenames(ids: Renaming, source: string, event: Event, operation: Operation, operation': Operation)
    requires RekeyTransition(ids, source, operation) == Success(operation')
    ensures OperationAccepted(ids.conversation, operation')
    ensures {(EventKind, ids.mint(EventKind, event.eventId))} + OperationIds(operation')
              == ids.Images({(EventKind, event.eventId)} + OperationIds(operation))
    ensures {(EventKind, ids.mint(EventKind, event.eventId))} + OperationDefinitions(operation')
              == ids.Images({(EventKind, event.eventId)} + OperationDefinitions(operation))
  {
    TransitionResolves(ids, source, operation);
    OperationDefinitionsRenamed(ids, source, operation);
    ids.ImagesOfOne((EventKind, event.eventId));
    ids.ImagesUnion({(EventKind, event.eventId)}, OperationIds(operation));
    ids.ImagesUnion({(EventKind, event.eventId)}, OperationDefinitions(operation));
  }

  lemma BaselineRenames(ids: Renaming, source: string, event: Event, baseline: Baseline, baseline': Baseline)
    requires RekeyBaseline(ids, source, baseline) == Success(baseline')
    ensures BaselineAccepted(ids.conversation, baseline')
    ensures {(EventKind, ids.mint(EventKind, event.eventId))} + BaselineIds(baseline')
              == ids.Images({(EventKind, event.eventId)} + BaselineIds(baseline))
    ensures {(EventKind, ids.mint(EventKind, event.eventId))} + BaselineDefinitions(baseline')
              == ids.Images({(EventKind, event.eventId)} + BaselineDefinitions(baseline))
  {
    BaselineResolves(ids, source, baseline);
    BaselineDefinitionsRenamed(ids, source, baseline);
    ids.ImagesOfOne((EventKind, event.eventId));
    ids.ImagesUnion({(EventKind, event.eventId)}, BaselineIds(baseline));
    ids.ImagesUnion({(EventKind, event.eventId)}, BaselineDefinitions(baseline));
  }

  lemma RecordRenames(hashes: Hashes, ids: Renaming, digests: map<string, string>, record: Record)
    requires Rekey(hashes, ids, digests, record).Success?
    ensures var after := Rekey(hashes, ids, digests, record).value.0;
            RecordAccepted(after) && RecordIds(after) == ids.Images(RecordIds(record))
  {
    if record.MessageRecord? {
      ProviderMessageResolves(ids, record.message);
    }
  }

  lemma OperationEventRenames(hashes: Hashes, ids: Renaming, source: string, digests: map<string, string>, event: Event)
    requires event.payload.Transition? || event.payload.Draft?
    requires RekeyEvent(hashes, ids, source, digests, event).Success?
    ensures Renames(ids, event, RekeyEvent(hashes, ids, source, digests, event).value.0)
  {
    var after := RekeyEvent(hashes, ids, source, digests, event).value.0;
    assert ids.Images({}) == {};
    if event.payload.Transition? {
      TransitionRenames(ids, source, event, event.payload.operation, after.payload.operation);
    } else {
      DraftsAgree(ids, source, event.payload, after.payload);
      TransitionRenames(ids, source, event, DraftOperation(event.payload), DraftOperation(after.payload));
    }
  }

  lemma ObservedEventRenames(hashes: Hashes, ids: Renaming, source: string, digests: map<string, string>, event: Event)
    requires event.payload.Observed?
    requires RekeyEvent(hashes, ids, source, digests, event).Success?
    ensures Renames(ids, event, RekeyEvent(hashes, ids, source, digests, event).value.0)
  {
    ids.ImagesOfOne((EventKind, event.eventId));
    ObservationResolves(ids, source, event.payload.observation);
    ids.ImagesUnion({(EventKind, event.eventId)}, ObservationIds(event.payload.observation));
  }

  lemma EventRenames(hashes: Hashes, ids: Renaming, source: string, digests: map<string, string>, event: Event)
    requires RekeyEvent(hashes, ids, source, digests, event).Success?
    ensures Renames(ids, event, RekeyEvent(hashes, ids, source, digests, event).value.0)
  {
    var after := RekeyEvent(hashes, ids, source, digests, event).value.0;
    assert ids.Images({}) == {};
    ids.ImagesOfOne((EventKind, event.eventId));
    match event.payload
    case Transition(_) => OperationEventRenames(hashes, ids, source, digests, event);
    case Draft(_, _, _, _, _, _) => OperationEventRenames(hashes, ids, source, digests, event);
    case Baselined(baseline) => BaselineRenames(ids, source, event, baseline, after.payload.baseline);
    case Branched(_, _, _) =>
    case Provider(record) =>
      RecordRenames(hashes, ids, digests, record);
      ids.ImagesUnion({(EventKind, event.eventId)}, RecordIds(record));
    case Observed(_, _) => ObservedEventRenames(hashes, ids, source, digests, event);
  }

  /** The operation read back from a rewritten draft is the rewritten operation. */
  lemma DraftsAgree(ids: Renaming, source: string, draft: Payload, once: Payload)
    requires draft.Draft? && RekeyTransition(ids, source, DraftOperation(draft)).Success?
    requires once == var after := RekeyTransition(ids, source, DraftOperation(draft)).value;
                     Draft(after.conversationId, after.runId, after.ownerId, after.assistant.id,
                           SourceSha(draft.digest.sha256), draft.facts)
    ensures once.Draft? && DraftOperation(once) == RekeyTransition(ids, source, DraftOperation(draft)).value
  {
    var after := RekeyTransition(ids, source, DraftOperation(draft)).value;
    assert after.assistant.parts == [];
  }

  ghost predicate AllRenamed(ids: Renaming, events: seq<Event>, after: seq<Event>) {
    |events| == |after| && forall i | 0 <= i < |events| :: Renames(ids, events[i], after[i])
  }

  lemma EventsRenamed(hashes: Hashes, ids: Renaming, source: string, events: seq<Event>)
    requires RekeyEvents(hashes, ids, source, events).Success?
    ensures AllRenamed(ids, events, RekeyEvents(hashes, ids, source, events).value.0)
  {
    SameNumber(hashes, ids, source, events);
    var after := RekeyEvents(hashes, ids, source, events).value.0;
    forall i | 0 <= i < |events| ensures Renames(ids, events[i], after[i]) {
      EventAt(hashes, ids, source, events, i);
      var now := Learn(ids, events[..i]);
      EventRenames(hashes, now, source, RekeyEvents(hashes, ids, source, events[..i]).value.1, events[i]);
      SameImages(ids, now, events[i], after[i]);
    }
  }

  lemma SameImages(ids: Renaming, now: Renaming, event: Event, after: Event)
    requires Extends(now, ids) && Renames(now, event, after)
    ensures Renames(ids, event, after)
  {
    assert forall identities :: now.Images(identities) == ids.Images(identities);
  }

  /** A rewritten log defines exactly the images of what the log defines, collected or learnt, in the
      destination conversation. */
  lemma LogDefinitionsRenamed(hashes: Hashes, ids: Renaming, source: string, events: seq<Event>)
    requires RekeyEvents(hashes, ids, source, events).Success?
    ensures var after := RekeyEvents(hashes, ids, source, events).value.0;
            && AllIds(EventDefinitions, after) == ids.Images(AllIds(EventDefinitions, events))
            && AllIds(EventLearns, after) == ids.Images(AllIds(EventLearns, events))
            && forall event | event in after :: event.conversationId == ids.conversation
  {
    EventsRenamed(hashes, ids, source, events);
    var after := RekeyEvents(hashes, ids, source, events).value.0;
    AllIdsImages(ids, EventDefinitions, events, after);
    AllIdsImages(ids, EventLearns, events, after);
  }

  /** All that a log refers to, collects or defines on the way. */
  ghost function Mentioned(events: seq<Event>): set<Identity> {
    AllIds(EventIds, events) + AllIds(EventDefinitions, events) + AllIds(EventLearns, events)
  }

  /** No identity of a log is left in the rewritten one, when the minting takes none for a target. */
  lemma NoSourceIdentityLeft(hashes: Hashes, ids: Renaming, source: string, events: seq<Event>)
    requires RekeyEvents(hashes, ids, source, events).Success?
    requires MintsAnew(ids, Mentioned(events))
    ensures Mentioned(RekeyEvents(hashes, ids, source, events).value.0) !! Mentioned(events)
  {
    var after := RekeyEvents(hashes, ids, source, events).value.0;
    EventsRenamed(hashes, ids, source, events);
    AllIdsImages(ids, EventIds, events, after);
    AllIdsImages(ids, EventDefinitions, events, after);
    AllIdsImages(ids, EventLearns, events, after);
    ids.ImagesUnion(AllIds(EventIds, events), AllIds(EventDefinitions, events));
    ids.ImagesUnion(AllIds(EventIds, events) + AllIds(EventDefinitions, events), AllIds(EventLearns, events));
  }

  // ---- two branches ---------------------------------------------------------------------------

  /** All that the first renaming can produce is collected for the second. */
  ghost predicate Covers(outer: Renaming, inner: Renaming) {
    inner.Images(inner.defined) <= outer.defined
  }

  predicate EventSurvives(outer: Renaming, inner: Renaming, source: string, event: Event) {
    event.payload.Observed? ==> ConversationsSurvive(outer, inner, source, event.payload.observation)
  }

  lemma DraftCompose(hashes: Hashes, outer: Renaming, inner: Renaming, source: string,
                     first: map<string, string>, second: map<string, string>, whole: map<string, string>, event: Event)
    requires event.payload.Draft?
    requires RekeyEvent(hashes, inner, source, first, event).Success?
    ensures var once := RekeyEvent(hashes, inner, source, first, event).value.0;
            var twice := RekeyEvent(hashes, outer, inner.conversation, second, once);
            var direct := RekeyEvent(hashes, Compose(outer, inner), source, whole, event);
            twice.Success? == direct.Success? && (twice.Success? ==> twice.value.0 == direct.value.0)
  {
    TransitionCompose(outer, inner, source, DraftOperation(event.payload));
    DraftsAgree(inner, source, event.payload, RekeyEvent(hashes, inner, source, first, event).value.0.payload);
  }

  lemma ObservedCompose(hashes: Hashes, outer: Renaming, inner: Renaming, source: string,
                        first: map<string, string>, second: map<string, string>, whole: map<string, string>, event: Event)
    requires event.payload.Observed?
    requires RekeyEvent(hashes, inner, source, first, event).Success?
    ensures var once := RekeyEvent(hashes, inner, source, first, event).value.0;
            var twice := RekeyEvent(hashes, outer, inner.conversation, second, once);
            var direct := RekeyEvent(hashes, Compose(outer, inner), source, whole, event);
            && twice.Success? == direct.Success?
            && (twice.Success? ==> (twice.value.0 == direct.value.0 <==> EventSurvives(outer, inner, source, event)))
  {
    ObservationCompose(outer, inner, source, event.payload.observation);
  }

  /** Any event but a provider record: whatever the digests are. */
  lemma EventCompose(hashes: Hashes, outer: Renaming, inner: Renaming, source: string,
                     first: map<string, string>, second: map<string, string>, whole: map<string, string>, event: Event)
    requires !event.payload.Provider?
    requires RekeyEvent(hashes, inner, source, first, event).Success?
    ensures var once := RekeyEvent(hashes, inner, source, first, event).value.0;
            var twice := RekeyEvent(hashes, outer, inner.conversation, second, once);
            var direct := RekeyEvent(hashes, Compose(outer, inner), source, whole, event);
            && twice.Success? == direct.Success?
            && (twice.Success? ==> (twice.value.0 == direct.value.0 <==> EventSurvives(outer, inner, source, event)))
  {
    match event.payload
    case Transition(operation) => TransitionCompose(outer, inner, source, operation);
    case Draft(_, _, _, _, _, _) => DraftCompose(hashes, outer, inner, source, first, second, whole, event);
    case Baselined(baseline) => BaselineCompose(outer, inner, source, baseline);
    case Branched(_, _, _) =>
    case Observed(_, _) => ObservedCompose(hashes, outer, inner, source, first, second, whole, event);
  }

  lemma LearnCompose(outer: Renaming, inner: Renaming, events: seq<Event>, once: seq<Event>)
    requires Covers(outer, inner) && AllRenamed(inner, events, once)
    ensures Covers(Learn(outer, once), Learn(inner, events))
    ensures Compose(Learn(outer, once), Learn(inner, events)) == Learn(Compose(outer, inner), events)
  {
    var more, less := Learn(outer, once), Learn(inner, events);
    AllIdsImages(inner, EventLearns, events, once);
    inner.ImagesUnion(inner.defined, AllIds(EventLearns, events));
    assert less.Images(less.defined) == inner.Images(less.defined);
    assert Compose(outer, inner).defined == inner.defined by {
      assert forall id | id in inner.defined :: inner.Image(id) in inner.Images(inner.defined);
    }
    assert Compose(more, less).defined == less.defined by {
      assert forall id | id in less.defined :: less.Image(id) in less.Images(less.defined);
    }
  }

  lemma AllRenamedPrefix(ids: Renaming, events: seq<Event>, after: seq<Event>, i: nat)
    requires AllRenamed(ids, events, after) && i <= |events|
    ensures AllRenamed(ids, events[..i], after[..i])
  {
  }

  /** Where the second renaming covers the first, whatever was rewritten once can be again. */
  lemma EventsSucceed(hashes: Hashes, outer: Renaming, inner: Renaming, source: string, events: seq<Event>)
    requires RekeyEvents(hashes, inner, source, events).Success? && Covers(outer, inner)
    ensures RekeyEvents(hashes, outer, inner.conversation, RekeyEvents(hashes, inner, source, events).value.0).Success?
    ensures RekeyEvents(hashes, Compose(outer, inner), source, events).Success?
  {
    var once := RekeyEvents(hashes, inner, source, events).value.0;
    EventsResolve(hashes, inner, source, events);
    EventsResolve(hashes, outer, inner.conversation, once);
    EventsResolve(hashes, Compose(outer, inner), source, events);
    EventsRenamed(hashes, inner, source, events);
    EventsProject(hashes, inner, source, events);
    JournalLinks(hashes, Learn(inner, events), Journal(events));
    forall i | 0 <= i < |events|
      ensures EventIds(once[i]) <= Learn(outer, once[..i]).defined
      ensures EventIds(events[i]) <= Learn(Compose(outer, inner), events[..i]).defined
    {
      AllRenamedPrefix(inner, events, once, i);
      LearnCompose(outer, inner, events[..i], once[..i]);
      KnownImages(Learn(outer, once[..i]), Learn(inner, events[..i]), EventIds(events[i]));
      assert Renames(inner, events[i], once[i]);
    }
  }

  lemma KnownImages(outer: Renaming, inner: Renaming, identities: set<Identity>)
    requires Covers(outer, inner) && identities <= inner.defined
    ensures inner.Images(identities) <= outer.defined && identities <= Compose(outer, inner).defined
  {
    assert forall id | id in identities :: inner.Image(id) in inner.Images(inner.defined);
  }

  /** At one place two rewritings and one by the composition agree, unless another conversation was
      taken for the branch or the records differ. */
  ghost predicate AgreesAt(outer: Renaming, inner: Renaming, source: string, event: Event, twice: Event, direct: Event) {
    if event.payload.Provider? then
      twice.payload.Provider? && direct.payload.Provider? && direct == twice.(payload := direct.payload)
    else
      !twice.payload.Provider? && !direct.payload.Provider?
      && (twice == direct <==> EventSurvives(outer, inner, source, event))
  }

  lemma EventAgrees(hashes: Hashes, outer: Renaming, inner: Renaming, source: string,
                    first: map<string, string>, second: map<string, string>, whole: map<string, string>, event: Event)
    requires RekeyEvent(hashes, inner, source, first, event).Success?
    requires RekeyEvent(hashes, outer, inner.conversation, second,
                        RekeyEvent(hashes, inner, source, first, event).value.0).Success?
    requires RekeyEvent(hashes, Compose(outer, inner), source, whole, event).Success?
    ensures var once := RekeyEvent(hashes, inner, source, first, event).value.0;
            AgreesAt(outer, inner, source, event,
                     RekeyEvent(hashes, outer, inner.conversation, second, once).value.0,
                     RekeyEvent(hashes, Compose(outer, inner), source, whole, event).value.0)
  {
    if !event.payload.Provider? {
      EventCompose(hashes, outer, inner, source, first, second, whole, event);
    }
  }

  lemma EventsAgreeAt(hashes: Hashes, outer: Renaming, inner: Renaming, source: string, events: seq<Event>, i: nat)
    requires RekeyEvents(hashes, inner, source, events).Success? && Covers(outer, inner) && i < |events|
    requires RekeyEvents(hashes, outer, inner.conversation, RekeyEvents(hashes, inner, source, events).value.0).Success?
    requires RekeyEvents(hashes, Compose(outer, inner), source, events).Success?
    ensures var once := RekeyEvents(hashes, inner, source, events).value.0;
            var twice := RekeyEvents(hashes, outer, inner.conversation, once).value.0;
            var direct := RekeyEvents(hashes, Compose(outer, inner), source, events).value.0;
            |twice| == |direct| == |events| && AgreesAt(outer, inner, source, events[i], twice[i], direct[i])
  {
    var once := RekeyEvents(hashes, inner, source, events).value.0;
    EventsRenamed(hashes, inner, source, events);
    EventAt(hashes, inner, source, events, i);
    EventAt(hashes, outer, inner.conversation, once, i);
    EventAt(hashes, Compose(outer, inner), source, events, i);
    AllRenamedPrefix(inner, events, once, i);
    LearnCompose(outer, inner, events[..i], once[..i]);
    var first := RekeyEvents(hashes, inner, source, events[..i]).value.1;
    var second := RekeyEvents(hashes, outer, inner.conversation, once[..i]).value.1;
    var whole := RekeyEvents(hashes, Compose(outer, inner), source, events[..i]).value.1;
    EventAgrees(hashes, Learn(outer, once[..i]), Learn(inner, events[..i]), source, first, second, whole, events[i]);
    AgreesAlike(Learn(outer, once[..i]), outer, Learn(inner, events[..i]), inner, source, events[i],
                RekeyEvents(hashes, outer, inner.conversation, once).value.0[i],
                RekeyEvents(hashes, Compose(outer, inner), source, events).value.0[i]);
  }

  lemma AgreesAlike(more: Renaming, outer: Renaming, less: Renaming, inner: Renaming, source: string, event: Event,
                    twice: Event, direct: Event)
    requires Extends(more, outer) && Extends(less, inner) && AgreesAt(more, less, source, event, twice, direct)
    ensures AgreesAt(outer, inner, source, event, twice, direct)
  {
  }

  /** Two logs with the same provider places have one journal exactly when they agree at those. */
  lemma {:induction false} JournalsAgree(a: seq<Event>, b: seq<Event>)
    requires |a| == |b| && forall i | 0 <= i < |a| :: a[i].payload.Provider? == b[i].payload.Provider?
    ensures |Journal(a)| == |Journal(b)|
    ensures Journal(a) == Journal(b) <==> forall i | 0 <= i < |a| && a[i].payload.Provider? :: a[i].payload == b[i].payload
  {
    if a != [] {
      var n := |a| - 1;
      JournalsAgree(a[..n], b[..n]);
      assert Journal(a)[..|Journal(a[..n])|] == Journal(a[..n]) && Journal(b)[..|Journal(b[..n])|] == Journal(b[..n]);
      if a[n].payload.Provider? {
        assert Journal(a)[|Journal(a[..n])|] == a[n].payload.record && Journal(b)[|Journal(b[..n])|] == b[n].payload.record;
      }
    }
  }

  /** Every conversation other than the source stays another one in between. */
  ghost predicate OthersStayOthers(outer: Renaming, inner: Renaming, source: string, events: seq<Event>) {
    forall event | event in events :: EventSurvives(outer, inner, source, event)
  }

  /** Where the second renaming covers the first, both ways succeed, and they give the same exactly when
      every link of the provider journal survives the digests in between and no other conversation is
      taken for the branch in between. */
  lemma EventsCompose(hashes: Hashes, outer: Renaming, inner: Renaming, source: string, events: seq<Event>)
    requires RekeyEvents(hashes, inner, source, events).Success? && Covers(outer, inner)
    ensures var once := RekeyEvents(hashes, inner, source, events).value.0;
            var twice := RekeyEvents(hashes, outer, inner.conversation, once);
            var direct := RekeyEvents(hashes, Compose(outer, inner), source, events);
            && twice.Success? && direct.Success?
            && (twice.value.0 == direct.value.0 <==>
                  && LinksSurvive(hashes, Learn(outer, once), Learn(inner, events), Journal(events), Journal(once))
                  && OthersStayOthers(outer, inner, source, events))
  {
    var once := RekeyEvents(hashes, inner, source, events).value.0;
    EventsSucceed(hashes, outer, inner, source, events);
    var twice := RekeyEvents(hashes, outer, inner.conversation, once).value.0;
    var direct := RekeyEvents(hashes, Compose(outer, inner), source, events).value.0;
    forall i | 0 <= i < |events|
      ensures |twice| == |direct| == |events| && AgreesAt(outer, inner, source, events[i], twice[i], direct[i])
    {
      EventsAgreeAt(hashes, outer, inner, source, events, i);
    }
    SameNumber(hashes, outer, inner.conversation, once);
    SameNumber(hashes, inner, source, events);
    SameNumber(hashes, Compose(outer, inner), source, events);
    TwoLogsAgree(outer, inner, source, events, twice, direct);
    EventsRenamed(hashes, inner, source, events);
    LearnCompose(outer, inner, events, once);
    EventsProject(hashes, inner, source, events);
    EventsProject(hashes, outer, inner.conversation, once);
    EventsProject(hashes, Compose(outer, inner), source, events);
    JournalCompose(hashes, Learn(outer, once), Learn(inner, events), Journal(events));
  }

  lemma TwoLogsAgree(outer: Renaming, inner: Renaming, source: string, events: seq<Event>, twice: seq<Event>,
                     direct: seq<Event>)
    requires |twice| == |direct| == |events|
    requires forall i | 0 <= i < |events| :: AgreesAt(outer, inner, source, events[i], twice[i], direct[i])
    ensures twice == direct <==> Journal(twice) == Journal(direct) && OthersStayOthers(outer, inner, source, events)
  {
    JournalsAgree(twice, direct);
    if twice == direct {
      forall event | event in events ensures EventSurvives(outer, inner, source, event) {
        var i :| 0 <= i < |events| && events[i] == event;
        assert AgreesAt(outer, inner, source, events[i], twice[i], direct[i]);
      }
    } else if Journal(twice) == Journal(direct) && OthersStayOthers(outer, inner, source, events) {
      forall i | 0 <= i < |events| ensures twice[i] == direct[i] {
        assert AgreesAt(outer, inner, source, events[i], twice[i], direct[i]) && events[i] in events;
      }
    }
  }
}
