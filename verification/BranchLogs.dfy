// Branching a whole log: fill in retained messages, collect what every event defines, then rewrite the
// events in order (branch-events.ts). The main result is that a branch of a branch is a branch.
module BranchLogs {
  import opened Prelude
  import opened BranchRenaming
  import opened BranchMessages
  import opened BranchTransitions
  import opened BranchBaseline
  import opened BranchObservations
  import opened BranchProvider
  import opened BranchEvents
  import opened BranchIdentities

  /** Messages that a replay has kept for events of the log, by event identity. */
  type Retained = map<string, Message>

  predicate Abandoned(event: Event) {
    && event.payload.Transition?
    && event.payload.operation.Recover?
    && event.payload.operation.abandons
    && event.payload.operation.recovered.None?
  }

  /** An abandoned run gets the retained message that its event does not carry. */
  function Hydrate(retained: Retained, event: Event): Event {
    if event.eventId in retained && Abandoned(event) then
      var operation := event.payload.operation;
      event.(payload := Transition(Recover(operation.conversationId, operation.runId, true,
                                           Some(retained[event.eventId]), operation.facts)))
    else event
  }

  function HydrateAll(retained: Retained, events: seq<Event>): (hydrated: seq<Event>)
    ensures |hydrated| == |events|
    ensures forall i | 0 <= i < |events| :: hydrated[i] == Hydrate(retained, events[i])
  {
    seq(|events|, i requires 0 <= i < |events| => Hydrate(retained, events[i]))
  }

  /** The retained messages of the log's events, in order. */
  function RetainedOf(retained: Retained, events: seq<Event>): seq<Message> {
    if events == [] then [] else
      (if events[0].eventId in retained then [retained[events[0].eventId]] else []) + RetainedOf(retained, events[1..])
  }

  ghost function SpillIds(spills: set<string>): set<Identity> {
    set spill | spill in spills :: (SpillKind, spill)
  }

  ghost function Collect(spills: set<string>, retained: Retained, events: seq<Event>): set<Identity> {
    SpillIds(spills) + AllIds(EventDefinitions, HydrateAll(retained, events))
    + AllIds(MessageDefinitions, RetainedOf(retained, events))
  }

  predicate Supported(events: seq<Event>) {
    forall event | event in events :: event.schemaVersion == 1
  }

  /** `rekeyBranchEvents` for a destination conversation, with the spills the caller defined. */
  ghost function BranchLog(hashes: Hashes, mint: Mint, conversation: RecordId, spills: set<string>, retained: Retained,
                           source: string, events: seq<Event>): Result<seq<Event>, Reason>
  {
    if !Supported(events) then Failure(UnsupportedVersion) else
      var ids := Renaming(conversation, mint, Collect(spills, retained, events));
      var _ :- Traverse(Messages(ids, source), RetainedOf(retained, events));
      var after :- RekeyEvents(hashes, ids, source, HydrateAll(retained, events));
      Success(after.0)
  }

  /** When a log can be branched: its versions are supported, its events and the messages retained for
      them are the source's own, and all they refer to is collected or learnt before. */
  lemma LogResolves(hashes: Hashes, mint: Mint, conversation: RecordId, spills: set<string>, retained: Retained,
                    source: string, events: seq<Event>)
    ensures var ids := Renaming(conversation, mint, Collect(spills, retained, events));
            BranchLog(hashes, mint, conversation, spills, retained, source, events).Success? <==>
              && Supported(events)
              && (forall message | message in RetainedOf(retained, events) :: MessagesOf(source)(message))
              && AllIds(MessageIds, RetainedOf(retained, events)) <= ids.defined
              && LogAccepted(hashes, source, HydrateAll(retained, events))
              && Known(ids, HydrateAll(retained, events))
  {
    var ids := Renaming(conversation, mint, Collect(spills, retained, events));
    MessagesResolve(ids, source, RetainedOf(retained, events));
    EventsResolve(hashes, ids, source, HydrateAll(retained, events));
  }

  // ---- collecting -------------------------------------------------------------------------------

  method CollectStoredRuns(ids: Identities, runs: seq<StoredRun>)
    requires ids.Valid()
    modifies ids`definitions, ids`defined
    ensures ids.Valid() && ids.defined == old(ids.defined) + AllIds(StoredRunDefinitions, runs)
  {
    for i := 0 to |runs|
      invariant ids.Valid() && ids.defined == old(ids.defined) + AllIds(StoredRunDefinitions, runs[..i])
    {
      ids.CollectRun(runs[i].run);
      AllIdsGrow(StoredRunDefinitions, runs, i);
    }
    assert runs[..|runs|] == runs;
  }

  method CollectBaseline(ids: Identities, baseline: Baseline)
    requires ids.Valid()
    modifies ids`definitions, ids`defined
    ensures ids.Valid() && ids.defined == old(ids.defined) + BaselineDefinitions(baseline)
  {
    CollectStoredRuns(ids, baseline.runs);
    ids.CollectMessages(baseline.messages);
  }

  method CollectPayload(ids: Identities, payload: Payload)
    requires ids.Valid()
    modifies ids`definitions, ids`defined
    ensures ids.Valid() && ids.defined == old(ids.defined) + PayloadDefinitions(payload)
  {
    match payload {
      case Transition(operation) => ids.CollectOperation(operation);
      case Draft(_, _, _, _, _, _) => ids.CollectOperation(DraftOperation(payload));
      case Baselined(baseline) => CollectBaseline(ids, baseline);
      case _ =>
    }
  }

  /** `collectBranchEvent`: an unsupported version is refused, having defined the event alone. */
  method CollectEvent(ids: Identities, event: Event) returns (supported: bool)
    requires ids.Valid()
    modifies ids`definitions, ids`defined
    ensures ids.Valid() && (supported <==> event.schemaVersion == 1)
    ensures ids.defined == old(ids.defined) + if supported then EventDefinitions(event) else {(EventKind, event.eventId)}
  {
    var _ := ids.Define(EventKind, event.eventId);
    supported := event.schemaVersion == 1;
    if supported {
      CollectPayload(ids, event.payload);
    }
  }

  // ---- what the branch supplies to the next one -----------------------------------------------

  lemma SpillsRenamed(ids: Renaming, spills: set<string>, spills': set<string>)
    requires spills' == set spill | spill in spills :: ids.mint(SpillKind, spill)
    ensures ids.Images(SpillIds(spills)) == SpillIds(spills')
  {
    forall id | id in SpillIds(spills') ensures id in ids.Images(SpillIds(spills)) {
      var spill :| spill in spills && ids.mint(SpillKind, spill) == id.1;
      assert (SpillKind, spill) in SpillIds(spills) && id == ids.Image((SpillKind, spill));
    }
  }

  /** The messages retained for the events of a branch: the renamed messages, under renamed events. */
  ghost predicate RetainsRenamed(ids: Renaming, source: string, retained: Retained, retained': Retained,
                                 events: seq<Event>, once: seq<Event>)
  {
    && |events| == |once|
    && forall i | 0 <= i < |events| ::
         && (events[i].eventId in retained <==> once[i].eventId in retained')
         && (events[i].eventId in retained ==>
               BranchMessage(ids, source, retained[events[i].eventId]) == Success(retained'[once[i].eventId]))
  }

  lemma {:induction false} RetainedRenamed(ids: Renaming, source: string, retained: Retained, retained': Retained,
                                           events: seq<Event>, once: seq<Event>)
    requires RetainsRenamed(ids, source, retained, retained', events, once)
    ensures Traverse(Messages(ids, source), RetainedOf(retained, events)) == Success(RetainedOf(retained', once))
  {
    if events != [] {
      assert events[0].eventId in retained <==> once[0].eventId in retained';
      RetainedRenamed(ids, source, retained, retained', events[1..], once[1..]);
      var rest := RetainedOf(retained, events[1..]);
      if events[0].eventId in retained {
        var message := retained[events[0].eventId];
        assert BranchMessage(ids, source, message) == Success(retained'[once[0].eventId]);
        assert ([message] + rest)[0] == message && ([message] + rest)[1..] == rest;
      } else {
        assert [] + rest == rest && [] + RetainedOf(retained', once[1..]) == RetainedOf(retained', once[1..]);
      }
    }
  }

  /** A branch needs no message filled in again. */
  lemma BranchIsHydrated(hashes: Hashes, ids: Renaming, source: string, retained: Retained, retained': Retained,
                         events: seq<Event>)
    requires RekeyEvents(hashes, ids, source, HydrateAll(retained, events)).Success?
    requires RetainsRenamed(ids, source, retained, retained', events,
                            RekeyEvents(hashes, ids, source, HydrateAll(retained, events)).value.0)
    ensures var once := RekeyEvents(hashes, ids, source, HydrateAll(retained, events)).value.0;
            HydrateAll(retained', once) == once
  {
    var hydrated := HydrateAll(retained, events);
    var once := RekeyEvents(hashes, ids, source, hydrated).value.0;
    forall i | 0 <= i < |once| ensures Hydrate(retained', once[i]) == once[i] {
      EventAt(hashes, ids, source, hydrated, i);
      assert events[i].eventId in retained <==> once[i].eventId in retained';
      AbandonedKept(hashes, Learn(ids, hydrated[..i]), source,
                    RekeyEvents(hashes, ids, source, hydrated[..i]).value.1, hydrated[i]);
    }
  }

  lemma AbandonedKept(hashes: Hashes, ids: Renaming, source: string, digests: map<string, string>, event: Event)
    requires RekeyEvent(hashes, ids, source, digests, event).Success?
    ensures Abandoned(RekeyEvent(hashes, ids, source, digests, event).value.0) ==> Abandoned(event)
  {
  }

  /** What the branch of a log defines: the images of what the log, its retained messages and its
      spills defined. */
  lemma BranchDefines(hashes: Hashes, inner: Renaming, spills: set<string>, spills': set<string>,
                      retained: Retained, retained': Retained, source: string, events: seq<Event>)
    requires inner.defined == Collect(spills, retained, events)
    requires RekeyEvents(hashes, inner, source, HydrateAll(retained, events)).Success?
    requires spills' == set spill | spill in spills :: inner.mint(SpillKind, spill)
    requires RetainsRenamed(inner, source, retained, retained', events,
                            RekeyEvents(hashes, inner, source, HydrateAll(retained, events)).value.0)
    ensures var once := RekeyEvents(hashes, inner, source, HydrateAll(retained, events)).value.0;
            Collect(spills', retained', once) == inner.Images(inner.defined)
  {
    var hydrated := HydrateAll(retained, events);
    var once := RekeyEvents(hashes, inner, source, hydrated).value.0;
    var defined, kept := AllIds(EventDefinitions, hydrated), AllIds(MessageDefinitions, RetainedOf(retained, events));
    BranchIsHydrated(hashes, inner, source, retained, retained', events);
    SpillsRenamed(inner, spills, spills');
    LogDefinitionsRenamed(hashes, inner, source, hydrated);
    RetainedRenamed(inner, source, retained, retained', events, once);
    MessagesDefinitionsRenamed(inner, source, RetainedOf(retained, events));
    inner.ImagesUnion(SpillIds(spills), defined);
    inner.ImagesUnion(SpillIds(spills) + defined, kept);
  }

  // ---- a branch of a branch is a branch --------------------------------------------------------

  /** Once a log is branched, the branch can be branched: whatever was retained can be rewritten again. */
  lemma RetainedAgain(outer: Renaming, inner: Renaming, source: string, messages: seq<Message>)
    requires Traverse(Messages(inner, source), messages).Success? && Covers(outer, inner)
    ensures Traverse(Messages(outer, inner.conversation), Traverse(Messages(inner, source), messages).value).Success?
    ensures Traverse(Messages(Compose(outer, inner), source), messages).Success?
  {
    MessagesResolve(inner, source, messages);
    MessagesResolve(outer, inner.conversation, Traverse(Messages(inner, source), messages).value);
    KnownImages(outer, inner, AllIds(MessageIds, messages));
    MessagesCompose(outer, inner, source, messages);
  }

  lemma SupportedAgain(ids: Renaming, retained: Retained, events: seq<Event>, once: seq<Event>)
    requires Supported(events) && AllRenamed(ids, HydrateAll(retained, events), once)
    ensures Supported(once)
  {
    forall event | event in once ensures event.schemaVersion == 1 {
      var i :| 0 <= i < |once| && once[i] == event;
      assert Renames(ids, HydrateAll(retained, events)[i], once[i]) && events[i] in events;
    }
  }

  /** Whatever can be branched once can be branched again, with nothing else to supply but the renamed
      spills and retained messages; and two branches amount to one branch by the composed minting exactly
      when every link of the provider journal survives the digests of the branch in between and no other
      conversation is taken for it. */
  lemma BranchOfBranch(hashes: Hashes, mint1: Mint, mint2: Mint, middle: RecordId, target: RecordId, spills: set<string>,
                       retained: Retained, retained': Retained, source: string, events: seq<Event>)
    requires BranchLog(hashes, mint1, middle, spills, retained, source, events).Success?
    requires RetainsRenamed(Renaming(middle, mint1, Collect(spills, retained, events)), source, retained, retained', events,
                            BranchLog(hashes, mint1, middle, spills, retained, source, events).value)
    ensures var once := BranchLog(hashes, mint1, middle, spills, retained, source, events).value;
            var spills' := set spill | spill in spills :: mint1(SpillKind, spill);
            var twice := BranchLog(hashes, mint2, target, spills', retained', middle, once);
            var direct := BranchLog(hashes, ComposeMint(mint2, mint1), target, spills, retained, source, events);
            var inner := Renaming(middle, mint1, Collect(spills, retained, events));
            var outer := Renaming(target, mint2, Collect(spills', retained', once));
            var hydrated := HydrateAll(retained, events);
            && twice.Success? && direct.Success?
            && (twice == direct <==>
                  && LinksSurvive(hashes, Learn(outer, once), Learn(inner, hydrated), Journal(hydrated), Journal(once))
                  && OthersStayOthers(outer, inner, source, hydrated))
  {
    var hydrated := HydrateAll(retained, events);
    var inner := Renaming(middle, mint1, Collect(spills, retained, events));
    var once := RekeyEvents(hashes, inner, source, hydrated).value.0;
    var spills': set<string> := set spill | spill in spills :: mint1(SpillKind, spill);
    var outer := Renaming(target, mint2, Collect(spills', retained', once));
    BranchDefines(hashes, inner, spills, spills', retained, retained', source, events);
    BranchIsHydrated(hashes, inner, source, retained, retained', events);
    RetainedRenamed(inner, source, retained, retained', events, once);
    RetainedAgain(outer, inner, source, RetainedOf(retained, events));
    EventsRenamed(hashes, inner, source, hydrated);
    SupportedAgain(inner, retained, events, once);
    assert Compose(outer, inner).defined == inner.defined by {
      assert forall id | id in inner.defined :: inner.Image(id) in inner.Images(inner.defined);
    }
    assert Compose(outer, inner) == Renaming(target, ComposeMint(mint2, mint1), Collect(spills, retained, events));
    EventsCompose(hashes, outer, inner, source, hydrated);
  }

  /** No conversation that the log names beside its own is given the identity of the branch. */
  ghost predicate BranchIsNew(mint: Mint, middle: RecordId, source: string, events: seq<Event>) {
    forall event | event in events && event.payload.Observed? && event.payload.observation.ChildEvent? ::
      && NoOther(mint, middle, source, event.payload.observation.child)
      && NoOther(mint, middle, source, event.payload.observation.parent)
  }

  predicate NoOther(mint: Mint, middle: RecordId, source: string, conversation: Option<string>) {
    conversation.Some? && conversation.value != source ==> mint(ChildKind, conversation.value) != middle
  }

  lemma NewBranchSuffices(outer: Renaming, inner: Renaming, retained: Retained, source: string, events: seq<Event>)
    requires BranchIsNew(inner.mint, inner.conversation, source, events)
    ensures OthersStayOthers(outer, inner, source, HydrateAll(retained, events))
  {
    var hydrated := HydrateAll(retained, events);
    forall event | event in hydrated ensures EventSurvives(outer, inner, source, event) {
      var i :| 0 <= i < |hydrated| && hydrated[i] == event;
      assert events[i] in events;
    }
  }

  /** In particular when no two provider messages of the branch in between share a digest, and its
      conversation identity is new. */
  lemma BranchesAgree(hashes: Hashes, mint1: Mint, mint2: Mint, middle: RecordId, target: RecordId, spills: set<string>,
                      retained: Retained, retained': Retained, source: string, events: seq<Event>)
    requires BranchLog(hashes, mint1, middle, spills, retained, source, events).Success?
    requires RetainsRenamed(Renaming(middle, mint1, Collect(spills, retained, events)), source, retained, retained', events,
                            BranchLog(hashes, mint1, middle, spills, retained, source, events).value)
    requires NoCollisions(hashes, Journal(BranchLog(hashes, mint1, middle, spills, retained, source, events).value))
    requires BranchIsNew(mint1, middle, source, events)
    ensures var once := BranchLog(hashes, mint1, middle, spills, retained, source, events).value;
            var spills' := set spill | spill in spills :: mint1(SpillKind, spill);
            var twice := BranchLog(hashes, mint2, target, spills', retained', middle, once);
            && twice.Success?
            && twice == BranchLog(hashes, ComposeMint(mint2, mint1), target, spills, retained, source, events)
  {
    var hydrated := HydrateAll(retained, events);
    var inner := Renaming(middle, mint1, Collect(spills, retained, events));
    var once := RekeyEvents(hashes, inner, source, hydrated).value.0;
    var spills': set<string> := set spill | spill in spills :: mint1(SpillKind, spill);
    var outer := Renaming(target, mint2, Collect(spills', retained', once));
    BranchOfBranch(hashes, mint1, mint2, middle, target, spills, retained, retained', source, events);
    EventsProject(hashes, inner, source, hydrated);
    NoCollisionsSuffice(hashes, Learn(outer, once), Learn(inner, hydrated), Journal(hydrated));
    NewBranchSuffices(outer, inner, retained, source, events);
  }
}
