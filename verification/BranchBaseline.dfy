// Renaming lifted to the baseline a migrated log begins with: its messages, runs and admission
// receipts (branch-events.ts).
module BranchBaseline {
  import opened Prelude
  import opened BranchRenaming
  import opened BranchMessages
  import opened BranchTransitions

  datatype StoredRun = StoredRun(run: Run, terminal: Option<Message>)

  datatype Admission = Admission(conversationId: string, idempotencyKey: string, input: Message,
                                 runId: string, assistantMessageId: string)

  /** `facts` stands for times, versions and the rest of the head. */
  datatype Baseline = Baseline(conversationId: string, messages: seq<Message>, compacted: Option<seq<string>>,
                               runs: seq<StoredRun>, admissions: seq<Admission>, facts: string)

  function BranchStoredRun(ids: Renaming, source: string, record: StoredRun): Result<StoredRun, Reason> {
    var run :- BranchRun(ids, source, record.run, false);
    var terminal :- MessageIfAny(ids, source, record.terminal);
    Success(StoredRun(run, terminal))
  }

  function StoredRuns(ids: Renaming, source: string): StoredRun -> Result<StoredRun, Reason> {
    record => BranchStoredRun(ids, source, record)
  }

  function BranchAdmission(ids: Renaming, source: string, receipt: Admission): Result<Admission, Reason> {
    var input :- BranchMessage(ids, source, receipt.input);
    var runId :- ids.Reference(RunKind, receipt.runId);
    var assistant :- ids.Reference(MessageKind, receipt.assistantMessageId);
    Success(Admission(ids.conversation, ids.Define(KeyKind, receipt.idempotencyKey), input, runId, assistant))
  }

  function Admissions(ids: Renaming, source: string): Admission -> Result<Admission, Reason> {
    receipt => BranchAdmission(ids, source, receipt)
  }

  function MessageListIfAny(ids: Renaming, messages: Option<seq<string>>): Result<Option<seq<string>>, Reason> {
    match messages
    case None => Success(None)
    case Some(list) => var targets :- ids.References(MessageKind, list); Success(Some(targets))
  }

  function RekeyBaseline(ids: Renaming, source: string, baseline: Baseline): Result<Baseline, Reason> {
    var messages :- Traverse(Messages(ids, source), baseline.messages);
    var compacted :- MessageListIfAny(ids, baseline.compacted);
    var runs :- Traverse(StoredRuns(ids, source), baseline.runs);
    var admissions :- Traverse(Admissions(ids, source), baseline.admissions);
    Success(Baseline(ids.conversation, messages, compacted, runs, admissions, baseline.facts))
  }

  // ---- identities a baseline mentions, and what it must satisfy ------------------------------

  ghost function StoredRunIds(record: StoredRun): set<Identity> {
    RunIds(record.run) + if record.terminal.Some? then MessageIds(record.terminal.value) else {}
  }

  ghost function AdmissionIds(receipt: Admission): set<Identity> {
    MessageIds(receipt.input) + {(RunKind, receipt.runId), (MessageKind, receipt.assistantMessageId)}
  }

  ghost function CompactedIds(compacted: Option<seq<string>>): set<Identity> {
    if compacted.Some? then Ids(MessageKind, compacted.value) else {}
  }

  ghost function BaselineIds(baseline: Baseline): set<Identity> {
    AllIds(MessageIds, baseline.messages) + CompactedIds(baseline.compacted)
    + AllIds(StoredRunIds, baseline.runs) + AllIds(AdmissionIds, baseline.admissions)
  }

  predicate StoredRunOf(source: string, record: StoredRun) {
    record.run.conversationId == source && (record.terminal.Some? ==> MessageOf(source, record.terminal.value))
  }

  function StoredRunsOf(source: string): StoredRun -> bool {
    record => StoredRunOf(source, record)
  }

  predicate AdmissionOf(source: string, receipt: Admission) {
    MessageOf(source, receipt.input)
  }

  function AdmissionsOf(source: string): Admission -> bool {
    receipt => AdmissionOf(source, receipt)
  }

  predicate BaselineAccepted(source: string, baseline: Baseline) {
    && (forall message | message in baseline.messages :: MessagesOf(source)(message))
    && (forall record | record in baseline.runs :: StoredRunsOf(source)(record))
    && (forall receipt | receipt in baseline.admissions :: AdmissionsOf(source)(receipt))
  }

  lemma StoredRunResolves(ids: Renaming, source: string, record: StoredRun)
    ensures BranchStoredRun(ids, source, record).Success? <==>
              StoredRunOf(source, record) && StoredRunIds(record) <= ids.defined
    ensures BranchStoredRun(ids, source, record).Success? ==>
              var after := BranchStoredRun(ids, source, record).value;
              StoredRunOf(ids.conversation, after) && StoredRunIds(after) == ids.Images(StoredRunIds(record))
  {
    RunResolves(ids, source, record.run, false);
    if record.terminal.Some? {
      MessageResolves(ids, source, record.terminal.value);
      ids.ImagesUnion(RunIds(record.run), MessageIds(record.terminal.value));
    }
  }

  lemma AdmissionResolves(ids: Renaming, source: string, receipt: Admission)
    ensures BranchAdmission(ids, source, receipt).Success? <==>
              AdmissionOf(source, receipt) && AdmissionIds(receipt) <= ids.defined
    ensures BranchAdmission(ids, source, receipt).Success? ==>
              var after := BranchAdmission(ids, source, receipt).value;
              AdmissionOf(ids.conversation, after) && AdmissionIds(after) == ids.Images(AdmissionIds(receipt))
  {
    MessageResolves(ids, source, receipt.input);
    ids.ImagesUnion(MessageIds(receipt.input), {(RunKind, receipt.runId), (MessageKind, receipt.assistantMessageId)});
  }

  lemma StoredRunsResolve(ids: Renaming, source: string, runs: seq<StoredRun>)
    ensures Traverse(StoredRuns(ids, source), runs).Success? <==>
              (forall record | record in runs :: StoredRunsOf(source)(record)) && AllIds(StoredRunIds, runs) <= ids.defined
    ensures Traverse(StoredRuns(ids, source), runs).Success? ==>
              var after := Traverse(StoredRuns(ids, source), runs).value;
              (forall record | record in after :: StoredRunsOf(ids.conversation)(record))
              && AllIds(StoredRunIds, after) == ids.Images(AllIds(StoredRunIds, runs))
  {
    forall record { StoredRunResolves(ids, source, record); }
    TraverseResolves(ids, StoredRuns(ids, source), StoredRunIds, StoredRunsOf(source), StoredRunsOf(ids.conversation), runs);
  }

  lemma AdmissionsResolve(ids: Renaming, source: string, admissions: seq<Admission>)
    ensures Traverse(Admissions(ids, source), admissions).Success? <==>
              (forall receipt | receipt in admissions :: AdmissionsOf(source)(receipt))
              && AllIds(AdmissionIds, admissions) <= ids.defined
    ensures Traverse(Admissions(ids, source), admissions).Success? ==>
              var after := Traverse(Admissions(ids, source), admissions).value;
              (forall receipt | receipt in after :: AdmissionsOf(ids.conversation)(receipt))
              && AllIds(AdmissionIds, after) == ids.Images(AllIds(AdmissionIds, admissions))
  {
    forall receipt { AdmissionResolves(ids, source, receipt); }
    TraverseResolves(ids, Admissions(ids, source), AdmissionIds, AdmissionsOf(source), AdmissionsOf(ids.conversation),
                     admissions);
  }

  lemma CompactedResolves(ids: Renaming, compacted: Option<seq<string>>)
    ensures MessageListIfAny(ids, compacted).Success? <==> CompactedIds(compacted) <= ids.defined
    ensures MessageListIfAny(ids, compacted).Success? ==>
              CompactedIds(MessageListIfAny(ids, compacted).value) == ids.Images(CompactedIds(compacted))
  {
    if compacted.Some? {
      ReferencesResolve(ids, MessageKind, compacted.value);
    }
  }

  lemma ImagesOfFour(ids: Renaming, a: set<Identity>, b: set<Identity>, c: set<Identity>, d: set<Identity>)
    ensures ids.Images(a + b + c + d) == ids.Images(a) + ids.Images(b) + ids.Images(c) + ids.Images(d)
  {
    ids.ImagesUnion(a, b);
    ids.ImagesUnion(a + b, c);
    ids.ImagesUnion(a + b + c, d);
  }

  lemma BaselineSucceeds(ids: Renaming, source: string, baseline: Baseline)
    ensures RekeyBaseline(ids, source, baseline).Success? <==>
              BaselineAccepted(source, baseline) && BaselineIds(baseline) <= ids.defined
  {
    MessagesResolve(ids, source, baseline.messages);
    CompactedResolves(ids, baseline.compacted);
    StoredRunsResolve(ids, source, baseline.runs);
    AdmissionsResolve(ids, source, baseline.admissions);
  }

  lemma BaselineIdsRenamed(ids: Renaming, source: string, baseline: Baseline)
    requires RekeyBaseline(ids, source, baseline).Success?
    ensures BaselineIds(RekeyBaseline(ids, source, baseline).value) == ids.Images(BaselineIds(baseline))
  {
    MessagesResolve(ids, source, baseline.messages);
    CompactedResolves(ids, baseline.compacted);
    StoredRunsResolve(ids, source, baseline.runs);
    AdmissionsResolve(ids, source, baseline.admissions);
    ImagesOfFour(ids, AllIds(MessageIds, baseline.messages), CompactedIds(baseline.compacted),
                 AllIds(StoredRunIds, baseline.runs), AllIds(AdmissionIds, baseline.admissions));
  }

  /** A baseline is rewritten exactly when all its runs and messages belong to the source and all its
      references were collected; a terminal message or an admitted input included. */
  lemma BaselineResolves(ids: Renaming, source: string, baseline: Baseline)
    ensures RekeyBaseline(ids, source, baseline).Success? <==>
              BaselineAccepted(source, baseline) && BaselineIds(baseline) <= ids.defined
    ensures RekeyBaseline(ids, source, baseline).Success? ==>
              var after := RekeyBaseline(ids, source, baseline).value;
              BaselineAccepted(ids.conversation, after) && BaselineIds(after) == ids.Images(BaselineIds(baseline))
  {
    BaselineSucceeds(ids, source, baseline);
    if RekeyBaseline(ids, source, baseline).Success? {
      BaselineIdsRenamed(ids, source, baseline);
      MessagesResolve(ids, source, baseline.messages);
      StoredRunsResolve(ids, source, baseline.runs);
      AdmissionsResolve(ids, source, baseline.admissions);
    }
  }

  /** No identity of a baseline is left in the rewritten one. */
  lemma NoSourceIdentityLeft(ids: Renaming, source: string, baseline: Baseline)
    requires RekeyBaseline(ids, source, baseline).Success? && MintsAnew(ids, BaselineIds(baseline))
    ensures BaselineIds(RekeyBaseline(ids, source, baseline).value) !! BaselineIds(baseline)
  {
    BaselineResolves(ids, source, baseline);
  }

  // ---- the functor law -------------------------------------------------------------------------

  lemma StoredRunsCompose(outer: Renaming, inner: Renaming, source: string, runs: seq<StoredRun>)
    requires Traverse(StoredRuns(inner, source), runs).Success?
    ensures Agree(Traverse(StoredRuns(outer, inner.conversation), Traverse(StoredRuns(inner, source), runs).value),
                  Traverse(StoredRuns(Compose(outer, inner), source), runs))
  {
    forall record | BranchStoredRun(inner, source, record).Success?
      ensures Agree(StoredRuns(outer, inner.conversation)(BranchStoredRun(inner, source, record).value),
                    StoredRuns(Compose(outer, inner), source)(record))
    {
      RunCompose(outer, inner, source, record.run, false);
      if record.terminal.Some? { MessageCompose(outer, inner, source, record.terminal.value); }
    }
    TraverseCompose(StoredRuns(inner, source), StoredRuns(outer, inner.conversation),
                    StoredRuns(Compose(outer, inner), source), runs);
  }

  lemma AdmissionsCompose(outer: Renaming, inner: Renaming, source: string, admissions: seq<Admission>)
    requires Traverse(Admissions(inner, source), admissions).Success?
    ensures Agree(Traverse(Admissions(outer, inner.conversation), Traverse(Admissions(inner, source), admissions).value),
                  Traverse(Admissions(Compose(outer, inner), source), admissions))
  {
    forall receipt | BranchAdmission(inner, source, receipt).Success?
      ensures Agree(Admissions(outer, inner.conversation)(BranchAdmission(inner, source, receipt).value),
                    Admissions(Compose(outer, inner), source)(receipt))
    {
      MessageCompose(outer, inner, source, receipt.input);
    }
    TraverseCompose(Admissions(inner, source), Admissions(outer, inner.conversation),
                    Admissions(Compose(outer, inner), source), admissions);
  }

  /** Rewriting a baseline twice is rewriting it once by the composed renaming. */
  lemma BaselineCompose(outer: Renaming, inner: Renaming, source: string, baseline: Baseline)
    requires RekeyBaseline(inner, source, baseline).Success?
    ensures Agree(RekeyBaseline(outer, inner.conversation, RekeyBaseline(inner, source, baseline).value),
                  RekeyBaseline(Compose(outer, inner), source, baseline))
  {
    MessagesCompose(outer, inner, source, baseline.messages);
    if baseline.compacted.Some? {
      ReferencesCompose(outer, inner, MessageKind, baseline.compacted.value);
    }
    StoredRunsCompose(outer, inner, source, baseline.runs);
    AdmissionsCompose(outer, inner, source, baseline.admissions);
  }

  // ---- what a baseline defines -----------------------------------------------------------------

  ghost function StoredRunDefinitions(record: StoredRun): set<Identity> {
    RunDefinitions(record.run)
  }

  /** The terminal messages of its runs and the inputs of its admissions define nothing. */
  ghost function BaselineDefinitions(baseline: Baseline): set<Identity> {
    AllIds(StoredRunDefinitions, baseline.runs) + AllIds(MessageDefinitions, baseline.messages)
  }

  lemma BaselineDefinitionsRenamed(ids: Renaming, source: string, baseline: Baseline)
    requires RekeyBaseline(ids, source, baseline).Success?
    ensures BaselineDefinitions(RekeyBaseline(ids, source, baseline).value) == ids.Images(BaselineDefinitions(baseline))
  {
    MessagesDefinitionsRenamed(ids, source, baseline.messages);
    forall record | BranchStoredRun(ids, source, record).Success?
      ensures StoredRunDefinitions(BranchStoredRun(ids, source, record).value) == ids.Images(StoredRunDefinitions(record))
    {
      assert ids.Images(RunDefinitions(record.run)) == RunDefinitions(BranchStoredRun(ids, source, record).value.run);
    }
    TraverseImages(ids, StoredRuns(ids, source), StoredRunDefinitions, baseline.runs);
    ids.ImagesUnion(AllIds(StoredRunDefinitions, baseline.runs), AllIds(MessageDefinitions, baseline.messages));
  }
}
