// Small logs and a digest of one character: where the conditions of the branching theorems are met,
// and where a collision leads a link astray.
module BranchExamples {
  import opened Prelude
  import opened BranchRenaming
  import opened BranchMessages
  import opened BranchBaseline
  import opened BranchObservations
  import opened BranchProvider
  import opened BranchEvents
  import opened BranchLogs

  function Answer(approvalId: string): ProviderMessage {
    ProviderMessage("tool", PartsBody([ResponseContent(approvalId, "")]), None)
  }

  /** The last character of the identity in an answer. */
  function ShortDigest(message: ProviderMessage): RecordId {
    if message.body.PartsBody? && |message.body.content| == 1 && message.body.content[0].ResponseContent?
       && message.body.content[0].approvalId != []
    then message.body.content[0].approvalId[|message.body.content[0].approvalId| - 1..]
    else "?"
  }

  const SHORT := Hashes((message: ProviderMessage) => ShortDigest(message), (instructions: string, shas: seq<string>) => "0")

  /** Two answers and a request that sends the first. */
  function TwoAnswers(): seq<Record> {
    [MessageRecord("a", Answer("a")), MessageRecord("b", Answer("b")), RequestRecord("run", "", ["a"], "0", "")]
  }

  ghost predicate Defines(ids: Renaming) {
    {(ApprovalKind, "a"), (ApprovalKind, "b"), (RunKind, "run")} <= ids.defined
  }

  lemma AnswerRenamed(ids: Renaming, approvalId: string)
    requires (ApprovalKind, approvalId) in ids.defined
    ensures BranchProviderMessage(ids, Answer(approvalId)) == Success(Answer(ids.mint(ApprovalKind, approvalId)))
  {
    var content := [ResponseContent(approvalId, "")];
    assert Traverse(Contents(ids), content).Success?;
    assert Traverse(Contents(ids), content).value == [ResponseContent(ids.mint(ApprovalKind, approvalId), "")];
  }

  lemma TwoAnswersRenamed(ids: Renaming)
    requires Defines(ids)
    ensures var a, b := Answer(ids.mint(ApprovalKind, "a")), Answer(ids.mint(ApprovalKind, "b"));
            RekeyJournal(SHORT, ids, TwoAnswers()).Success?
            && RekeyJournal(SHORT, ids, TwoAnswers()).value.0 ==
                 [MessageRecord(ShortDigest(a), a), MessageRecord(ShortDigest(b), b),
                  RequestRecord(ids.mint(RunKind, "run"), "", [ShortDigest(a)], "0", "")]
  {
    var records := TwoAnswers();
    assert records[..2][..1] == records[..1] && records[..1][..0] == [];
    AnswerRenamed(ids, "a");
    AnswerRenamed(ids, "b");
    assert ShortDigest(Answer("a")) == "a" && ShortDigest(Answer("b")) == "b";
    var a, b := Answer(ids.mint(ApprovalKind, "a")), Answer(ids.mint(ApprovalKind, "b"));
    var digests := map["a" := ShortDigest(a), "b" := ShortDigest(b)];
    assert Rekey(SHORT, ids, map[], records[0]) == Success((MessageRecord(ShortDigest(a), a), map["a" := ShortDigest(a)]));
    assert Rekey(SHORT, ids, map["a" := ShortDigest(a)], records[1]) == Success((MessageRecord(ShortDigest(b), b), digests));
    var one, two := [MessageRecord(ShortDigest(a), a)], [MessageRecord(ShortDigest(a), a), MessageRecord(ShortDigest(b), b)];
    assert [] + one == one && one + [MessageRecord(ShortDigest(b), b)] == two;
    assert RekeyJournal(SHORT, ids, []) == Success(([], map[]));
    assert RekeyJournal(SHORT, ids, records[..1]) == Success((one, map["a" := ShortDigest(a)]));
    assert RekeyJournal(SHORT, ids, records[..2]) == Success((two, digests));
    assert Traverse(Relink(digests), ["a"]).Success?;
    assert Traverse(Relink(digests), ["a"]).value == [ShortDigest(a)];
  }

  lemma TwoMessagesDiffer(hashes: Hashes, records: seq<Record>)
    requires |records| == 3 && records[0].MessageRecord? && records[1].MessageRecord? && !records[2].MessageRecord?
    requires hashes.message(records[0].message) != hashes.message(records[1].message)
    ensures NoCollisions(hashes, records)
  {
  }

  /** Even so short a digest has no collisions in a journal whose new identities end differently. */
  lemma ShortDigestsCanDiffer(ids: Renaming)
    requires Defines(ids)
    requires ShortDigest(Answer(ids.mint(ApprovalKind, "a"))) != ShortDigest(Answer(ids.mint(ApprovalKind, "b")))
    ensures RekeyJournal(SHORT, ids, TwoAnswers()).Success?
    ensures NoCollisions(SHORT, RekeyJournal(SHORT, ids, TwoAnswers()).value.0)
  {
    TwoAnswersRenamed(ids);
    TwoMessagesDiffer(SHORT, RekeyJournal(SHORT, ids, TwoAnswers()).value.0);
  }

  lemma LinkLost(outer: Renaming, inner: Renaming, once: seq<Record>)
    requires Defines(inner) && Defines(Compose(outer, inner))
    requires var a, b := Answer(inner.mint(ApprovalKind, "a")), Answer(inner.mint(ApprovalKind, "b"));
             |once| == 3 && once[1] == MessageRecord(ShortDigest(a), b)
    requires var both := Compose(outer, inner).mint;
             ShortDigest(Answer(both(ApprovalKind, "a"))) != ShortDigest(Answer(both(ApprovalKind, "b")))
    ensures !LinkSurvives(SHORT, outer, inner, TwoAnswers()[..2], once[..2], "a")
  {
    var records := TwoAnswers();
    var a, b := inner.mint(ApprovalKind, "a"), inner.mint(ApprovalKind, "b");
    AnswerRenamed(inner, "a");
    AnswerRenamed(outer, a);
    AnswerRenamed(outer, b);
    assert records[..2][..1] == [MessageRecord("a", Answer("a"))];
    assert Named(records[..2], "a") == Some(Answer("a"));
    assert Named(once[..2], ShortDigest(Answer(a))) == Some(Answer(b));
  }

  /** When they end alike and the second rewriting tells them apart again, the request ends up with
      the other answer. */
  lemma CollisionMisleads(outer: Renaming, inner: Renaming)
    requires Defines(inner) && Defines(Compose(outer, inner))
    requires ShortDigest(Answer(inner.mint(ApprovalKind, "a"))) == ShortDigest(Answer(inner.mint(ApprovalKind, "b")))
    requires var both := Compose(outer, inner).mint;
             ShortDigest(Answer(both(ApprovalKind, "a"))) != ShortDigest(Answer(both(ApprovalKind, "b")))
    ensures var once := RekeyJournal(SHORT, inner, TwoAnswers());
            && once.Success? && RekeyJournal(SHORT, outer, once.value.0).Success?
            && RekeyJournal(SHORT, Compose(outer, inner), TwoAnswers()).Success?
            && RekeyJournal(SHORT, outer, once.value.0).value.0
                 != RekeyJournal(SHORT, Compose(outer, inner), TwoAnswers()).value.0
  {
    var records := TwoAnswers();
    TwoAnswersRenamed(inner);
    TwoAnswersRenamed(Compose(outer, inner));
    JournalCompose(SHORT, outer, inner, records);
    var once := RekeyJournal(SHORT, inner, records).value.0;
    LinkLost(outer, inner, once);
    assert "a" in records[2].messageShas;
    assert !LinksSurviveAt(SHORT, outer, inner, records, once, 2);
  }

  /** Two renamings for which that happens: one ends every identity in `0`, the other takes it off. */
  function Ended(): Renaming {
    Renaming("middle", (kind: Kind, source: string) => source + "0",
             {(ApprovalKind, "a"), (ApprovalKind, "b"), (RunKind, "run")})
  }

  function Restored(): Renaming {
    Renaming("end", (kind: Kind, source: string) => if |source| > 1 then source[..|source| - 1] else "0",
             {(ApprovalKind, "a0"), (ApprovalKind, "b0"), (RunKind, "run0")})
  }

  lemma CollisionHappens()
    ensures var once := RekeyJournal(SHORT, Ended(), TwoAnswers());
            && once.Success? && RekeyJournal(SHORT, Restored(), once.value.0).Success?
            && RekeyJournal(SHORT, Compose(Restored(), Ended()), TwoAnswers()).Success?
            && RekeyJournal(SHORT, Restored(), once.value.0).value.0
                 != RekeyJournal(SHORT, Compose(Restored(), Ended()), TwoAnswers()).value.0
  {
    assert Ended().mint(ApprovalKind, "a") == "a0" && Ended().mint(ApprovalKind, "b") == "b0"
           && Ended().mint(RunKind, "run") == "run0";
    assert Restored().mint(ApprovalKind, "a0") == "a" && Restored().mint(ApprovalKind, "b0") == "b";
    CollisionMisleads(Restored(), Ended());
  }

  // ---- a whole log --------------------------------------------------------------------------------

  function LogEvent(eventId: string, payload: Payload): Event {
    Event(eventId, "source", 1, true, "", payload)
  }

  /** A baseline with one run, an observation that defines two approvals, and the journal that refers to
      them. */
  function AnswersLog(): seq<Event> {
    var run := Run("run", "source", [], "reply", None, None, None, None, "");
    [LogEvent("1", Baselined(Baseline("source", [], None, [StoredRun(run, None)], [], ""))),
     LogEvent("2", Observed(false, ChildEvent(None, None, None, None, None, Some("a"), Some("b"), None, None, ""))),
     LogEvent("3", Provider(TwoAnswers()[0])),
     LogEvent("4", Provider(TwoAnswers()[1])),
     LogEvent("5", Provider(TwoAnswers()[2]))]
  }

  lemma AnswersJournal()
    ensures Journal(AnswersLog()) == TwoAnswers()
  {
    var log := AnswersLog();
    assert log[..4][..3] == log[..3] && log[..3][..2] == log[..2] && log[..2][..1] == log[..1] && log[..1][..0] == [];
    assert Journal(log[..0]) == [] && Journal(log[..1]) == [] && Journal(log[..2]) == [];
    assert Journal(log[..3]) == [TwoAnswers()[0]];
    assert Journal(log[..4]) == [TwoAnswers()[0], TwoAnswers()[1]];
  }

  lemma {:induction false} NothingRetained(events: seq<Event>)
    ensures RetainedOf(map[], events) == [] && HydrateAll(map[], events) == events
  {
    if events != [] {
      NothingRetained(events[1..]);
    }
  }

  lemma AllIdsOfOne<T(!new)>(idsOf: T -> set<Identity>, x: T)
    ensures AllIds(idsOf, [x]) == idsOf(x) && AllIds(idsOf, []) == {}
  {
  }

  const BASELINE_IDS: set<Identity> := {(EventKind, "1"), (RunKind, "run"), (MessageKind, "reply")}

  lemma BaselineRefers()
    ensures EventIds(AnswersLog()[0]) == EventDefinitions(AnswersLog()[0]) == BASELINE_IDS
  {
    var record := AnswersLog()[0].payload.baseline.runs[0];
    AllIdsOfOne(StoredRunDefinitions, record);
    AllIdsOfOne(StoredRunIds, record);
    assert Ids(MessageKind, []) == {};
  }

  /** All that the log refers to, in the order of its events. */
  function AnswerIds(i: nat): set<Identity> {
    if i == 0 then BASELINE_IDS
    else if i == 1 then {(EventKind, "2")}
    else if i == 2 then {(EventKind, "3"), (ApprovalKind, "a")}
    else if i == 3 then {(EventKind, "4"), (ApprovalKind, "b")}
    else {(EventKind, "5"), (RunKind, "run")}
  }

  lemma AnswerRefers(eventId: string, approvalId: string)
    ensures EventIds(LogEvent(eventId, Provider(MessageRecord(approvalId, Answer(approvalId)))))
            == {(EventKind, eventId), (ApprovalKind, approvalId)}
  {
    AllIdsOfOne(ContentIds, ResponseContent(approvalId, ""));
  }

  lemma ObservationRefers()
    ensures var event := AnswersLog()[1];
            EventIds(event) == {(EventKind, "2")} && EventLearns(event) == {(ApprovalKind, "a"), (ApprovalKind, "b")}
  {
  }

  lemma AnswersRefer(i: nat)
    requires i < |AnswersLog()|
    ensures EventIds(AnswersLog()[i]) == AnswerIds(i)
  {
    if i == 0 {
      BaselineRefers();
    } else if i == 1 {
      ObservationRefers();
    } else if i == 2 {
      AnswerRefers("3", "a");
    } else if i == 3 {
      AnswerRefers("4", "b");
    }
  }

  lemma AnswersCollected(ids: Renaming)
    requires ids.defined == Collect({}, map[], AnswersLog())
    ensures BASELINE_IDS + {(EventKind, "2"), (EventKind, "3"), (EventKind, "4"), (EventKind, "5")} <= ids.defined
  {
    var log := AnswersLog();
    NothingRetained(log);
    BaselineRefers();
    assert AllIds(EventDefinitions, log) <= ids.defined;
    forall i, id | 0 <= i < |log| && id in EventDefinitions(log[i]) ensures id in AllIds(EventDefinitions, log) {
      assert log[i] in log;
    }
    assert (EventKind, "2") in EventDefinitions(log[1]) && (EventKind, "3") in EventDefinitions(log[2])
           && (EventKind, "4") in EventDefinitions(log[3]) && (EventKind, "5") in EventDefinitions(log[4]);
  }

  lemma LearntBehind(ids: Renaming, events: seq<Event>, k: nat, i: nat)
    requires k < i <= |events|
    ensures EventLearns(events[k]) <= Learn(ids, events[..i]).defined
  {
    assert events[..i][k] == events[k] && events[k] in events[..i];
  }

  lemma AnswerIdsKnown(i: nat, defined: set<Identity>)
    requires BASELINE_IDS + {(EventKind, "2"), (EventKind, "3"), (EventKind, "4"), (EventKind, "5")} <= defined
    requires i >= 2 ==> {(ApprovalKind, "a"), (ApprovalKind, "b")} <= defined
    ensures AnswerIds(i) <= defined
  {
  }

  /** For any log whose second event defines both approvals. */
  lemma KnownOnceLearnt(ids: Renaming, log: seq<Event>)
    requires |log| >= 2 && EventLearns(log[1]) == {(ApprovalKind, "a"), (ApprovalKind, "b")}
    requires forall i | 0 <= i < |log| :: EventIds(log[i]) == AnswerIds(i)
    requires BASELINE_IDS + {(EventKind, "2"), (EventKind, "3"), (EventKind, "4"), (EventKind, "5")} <= ids.defined
    ensures Known(ids, log) && Defines(Learn(ids, log))
  {
    forall i | 0 <= i < |log| ensures EventIds(log[i]) <= Learn(ids, log[..i]).defined {
      if i >= 2 {
        LearntBehind(ids, log, 1, i);
      }
      AnswerIdsKnown(i, Learn(ids, log[..i]).defined);
    }
    LearntBehind(ids, log, 1, |log|);
    assert log[..|log|] == log;
  }

  lemma AnswersKnown(ids: Renaming)
    requires ids.defined == Collect({}, map[], AnswersLog())
    ensures Known(ids, AnswersLog()) && Defines(Learn(ids, AnswersLog()))
  {
    AnswersCollected(ids);
    ObservationRefers();
    forall i | 0 <= i < |AnswersLog()| ensures EventIds(AnswersLog()[i]) == AnswerIds(i) {
      AnswersRefer(i);
    }
    KnownOnceLearnt(ids, AnswersLog());
  }

  lemma AnswersAccepted()
    ensures LogAccepted(SHORT, "source", AnswersLog())
  {
    AnswersJournal();
    AnswersConsistent();
    assert forall event | event in AnswersLog() :: EventAccepted("source", event);
  }

  lemma AnswersConsistent()
    ensures Consistent(SHORT, TwoAnswers())
  {
    var records := TwoAnswers();
    assert ShortDigest(Answer("a")) == "a" && ShortDigest(Answer("b")) == "b";
    assert records[..2][..1] == records[..1];
    assert Named(records[..2], "a").Some?;
  }

  lemma AnswersNameNoOther(mint: Mint, middle: RecordId)
    ensures BranchIsNew(mint, middle, "source", AnswersLog()) && Supported(AnswersLog())
  {
  }

  /** Without retained messages. */
  lemma PlainLogBranches(hashes: Hashes, mint: Mint, middle: RecordId, source: string, events: seq<Event>)
    requires Supported(events) && LogAccepted(hashes, source, events)
    requires Known(Renaming(middle, mint, Collect({}, map[], events)), events)
    ensures var ids, once := Renaming(middle, mint, Collect({}, map[], events)),
                             BranchLog(hashes, mint, middle, {}, map[], source, events);
            && once.Success?
            && RetainsRenamed(ids, source, map[], map[], events, once.value)
            && RekeyJournal(hashes, Learn(ids, events), Journal(events)).Success?
            && RekeyJournal(hashes, Learn(ids, events), Journal(events)).value.0 == Journal(once.value)
  {
    NothingRetained(events);
    LogResolves(hashes, mint, middle, {}, map[], source, events);
    EventsProject(hashes, Renaming(middle, mint, Collect({}, map[], events)), source, events);
  }

  /** The log can be branched, and where the two new approvals end differently all that `BranchesAgree`
      asks of it holds. */
  lemma AnswersCanBeBranched(mint: Mint, middle: RecordId)
    requires ShortDigest(Answer(mint(ApprovalKind, "a"))) != ShortDigest(Answer(mint(ApprovalKind, "b")))
    ensures var once := BranchLog(SHORT, mint, middle, {}, map[], "source", AnswersLog());
            && once.Success? && NoCollisions(SHORT, Journal(once.value)) && BranchIsNew(mint, middle, "source", AnswersLog())
            && RetainsRenamed(Renaming(middle, mint, Collect({}, map[], AnswersLog())), "source", map[], map[],
                              AnswersLog(), once.value)
  {
    var ids := Renaming(middle, mint, Collect({}, map[], AnswersLog()));
    AnswersAccepted();
    AnswersKnown(ids);
    AnswersNameNoOther(mint, middle);
    PlainLogBranches(SHORT, mint, middle, "source", AnswersLog());
    AnswersJournal();
    ShortDigestsCanDiffer(Learn(ids, AnswersLog()));
  }
}
