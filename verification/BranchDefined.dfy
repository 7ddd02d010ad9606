// What a log defines for its branch, kind by kind (packages/core/src/agent-runtime/branch-identities.ts and
// collectBranchEvent in branch-events.ts).
module BranchDefined {
  import opened Prelude
  import opened BranchRenaming
  import opened BranchMessages
  import opened BranchTransitions
  import opened BranchBaseline
  import opened BranchObservations
  import opened BranchEvents
  import opened BranchLogs

  /** The messages that a payload brings into the conversation; a baseline's admissions and terminal
      messages and a run's input are not among them. */
  function MessagesOfPayload(payload: Payload): seq<Message> {
    match payload
    case Transition(Accept(_, input, _, _, _)) => [input]
    case Transition(Checkpoint(_, _, _, assistant, _)) => [assistant]
    case Transition(Terminal(_, _, _, assistant, _, _)) => [assistant]
    case Transition(Recover(_, _, _, Some(recovered), _)) => [recovered]
    case Transition(Compact(_, _, summary, _)) => [summary]
    case Transition(Seed(_, _, inputs, _)) => inputs
    case Baselined(baseline) => baseline.messages
    case _ => []
  }

  function RunsOfPayload(payload: Payload): seq<Run> {
    match payload
    case Transition(Accept(_, _, run, _, _)) => [run]
    case Baselined(baseline) => seq(|baseline.runs|, i requires 0 <= i < |baseline.runs| => baseline.runs[i].run)
    case _ => []
  }

  ghost predicate MessageDefines(message: Message, kind: Kind, id: string) {
    match kind
    case MessageKind => message.id == id
    case CallKind => exists i :: 0 <= i < |message.parts| && message.parts[i].ToolCallPart? && message.parts[i].callId == id
    case ApprovalKind =>
      exists i :: 0 <= i < |message.parts| && message.parts[i].ApprovalRequestPart? && message.parts[i].approvalId == id
    case _ => false
  }

  predicate RunDefines(run: Run, kind: Kind, id: string) {
    match kind
    case RunKind => run.id == id
    case MessageKind => run.assistantMessageId == id
    case OperationKind => run.lastOperation.Some? && run.lastOperation.value.operationId == id
    case _ => false
  }

  /** An event defines itself, what its messages and runs define, the assistant of a draft and the operation
      that is recorded. */
  ghost predicate EventDefines(event: Event, kind: Kind, id: string) {
    || (kind == EventKind && event.eventId == id)
    || (exists message :: message in MessagesOfPayload(event.payload) && MessageDefines(message, kind, id))
    || (exists run :: run in RunsOfPayload(event.payload) && RunDefines(run, kind, id))
    || (kind == MessageKind && event.payload.Draft? && event.payload.assistantId == id)
    || (kind == OperationKind && event.payload.Transition? && event.payload.operation.RecordOperation?
        && event.payload.operation.operation.operationId == id)
  }

  lemma MessageTells(message: Message, kind: Kind, id: string)
    ensures (kind, id) in MessageDefinitions(message) <==> MessageDefines(message, kind, id)
  {
    if i :| 0 <= i < |message.parts| && (kind, id) in PartDefinitions(message.parts[i]) {
      assert message.parts[i] in message.parts;
    }
  }

  lemma RunTells(run: Run, kind: Kind, id: string)
    ensures (kind, id) in RunDefinitions(run) <==> RunDefines(run, kind, id)
  {
  }

  lemma MessagesTell(messages: seq<Message>, kind: Kind, id: string)
    ensures (kind, id) in AllIds(MessageDefinitions, messages) <==>
              exists message :: message in messages && MessageDefines(message, kind, id)
  {
    forall message ensures (kind, id) in MessageDefinitions(message) <==> MessageDefines(message, kind, id) {
      MessageTells(message, kind, id);
    }
  }

  lemma RunsTell(runs: seq<Run>, kind: Kind, id: string)
    ensures (kind, id) in AllIds(RunDefinitions, runs) <==> exists run :: run in runs && RunDefines(run, kind, id)
  {
    forall run ensures (kind, id) in RunDefinitions(run) <==> RunDefines(run, kind, id) {
      RunTells(run, kind, id);
    }
  }

  lemma BaselineIsCarried(baseline: Baseline)
    ensures BaselineDefinitions(baseline)
         == AllIds(RunDefinitions, RunsOfPayload(Baselined(baseline))) + AllIds(MessageDefinitions, baseline.messages)
  {
    var runs, records := RunsOfPayload(Baselined(baseline)), baseline.runs;
    forall identity ensures identity in AllIds(StoredRunDefinitions, records) <==> identity in AllIds(RunDefinitions, runs) {
      if record :| record in records && identity in StoredRunDefinitions(record) {
        var i :| 0 <= i < |records| && records[i] == record;
        assert runs[i] in runs && identity in RunDefinitions(runs[i]);
      }
      if run :| run in runs && identity in RunDefinitions(run) {
        var i :| 0 <= i < |runs| && runs[i] == run;
        assert records[i] in records && identity in StoredRunDefinitions(records[i]);
      }
    }
  }

  function RecordedIds(operation: Operation): set<Identity> {
    if operation.RecordOperation? then {(OperationKind, operation.operation.operationId)} else {}
  }

  lemma AllOfOne<T(!new)>(idsOf: T -> set<Identity>, x: T)
    ensures AllIds(idsOf, [x]) == idsOf(x)
  {
    assert x in [x];
  }

  lemma OperationIsCarried(operation: Operation)
    ensures OperationDefinitions(operation)
         == AllIds(MessageDefinitions, MessagesOfPayload(Transition(operation)))
            + AllIds(RunDefinitions, RunsOfPayload(Transition(operation))) + RecordedIds(operation)
  {
    match operation
    case Accept(_, input, run, _, _) =>
      AllOfOne(MessageDefinitions, input);
      AllOfOne(RunDefinitions, run);
    case Checkpoint(_, _, _, assistant, _) => AllOfOne(MessageDefinitions, assistant);
    case Terminal(_, _, _, assistant, _, _) => AllOfOne(MessageDefinitions, assistant);
    case Recover(_, _, _, recovered, _) => if recovered.Some? { AllOfOne(MessageDefinitions, recovered.value); }
    case Compact(_, _, summary, _) => AllOfOne(MessageDefinitions, summary);
    case _ =>
  }

  lemma CarriedTells(event: Event, kind: Kind, id: string)
    requires event.payload.Transition? || event.payload.Baselined?
    ensures (kind, id) in EventDefinitions(event) <==> EventDefines(event, kind, id)
  {
    MessagesTell(MessagesOfPayload(event.payload), kind, id);
    RunsTell(RunsOfPayload(event.payload), kind, id);
    if event.payload.Transition? {
      OperationIsCarried(event.payload.operation);
    } else {
      BaselineIsCarried(event.payload.baseline);
    }
  }

  lemma EventTells(event: Event, kind: Kind, id: string)
    ensures (kind, id) in EventDefinitions(event) <==> EventDefines(event, kind, id)
  {
    if event.payload.Transition? || event.payload.Baselined? {
      CarriedTells(event, kind, id);
    } else if event.payload.Draft? {
      MessageTells(DraftOperation(event.payload).assistant, kind, id);
    }
  }

  /** A whole log defines the spills it is given and what its events, hydrated, and its retained messages
      define, and nothing else. */
  lemma LogDefines(spills: set<string>, retained: Retained, events: seq<Event>, kind: Kind, id: string)
    ensures (kind, id) in Collect(spills, retained, events) <==>
              || (kind == SpillKind && id in spills)
              || (exists i :: 0 <= i < |events| && EventDefines(Hydrate(retained, events[i]), kind, id))
              || (exists i :: 0 <= i < |events| && events[i].eventId in retained
                              && MessageDefines(retained[events[i].eventId], kind, id))
  {
    var hydrated := HydrateAll(retained, events);
    forall event ensures (kind, id) in EventDefinitions(event) <==> EventDefines(event, kind, id) {
      EventTells(event, kind, id);
    }
    MessagesTell(RetainedOf(retained, events), kind, id);
    RetainedTold(retained, events, kind, id);
    if i :| 0 <= i < |events| && EventDefines(Hydrate(retained, events[i]), kind, id) {
      assert hydrated[i] in hydrated;
    }
  }

  lemma {:induction false} RetainedTold(retained: Retained, events: seq<Event>, kind: Kind, id: string)
    ensures (exists message :: message in RetainedOf(retained, events) && MessageDefines(message, kind, id)) <==>
              exists i :: 0 <= i < |events| && events[i].eventId in retained
                          && MessageDefines(retained[events[i].eventId], kind, id)
  {
    if events != [] {
      RetainedTold(retained, events[1..], kind, id);
      var first := if events[0].eventId in retained then [retained[events[0].eventId]] else [];
      assert RetainedOf(retained, events) == first + RetainedOf(retained, events[1..]);
      if i :| 0 <= i < |events| && events[i].eventId in retained && MessageDefines(retained[events[i].eventId], kind, id) {
        assert i > 0 ==> events[i] == events[1..][i - 1];
        assert i == 0 ==> retained[events[0].eventId] in first;
      }
    }
  }
}
