# Stitchkit agent runtime: a verified model

A Dafny model of the parts of stitchkit where correctness hangs on an algorithm or a protocol, with
proofs of what they promise. `dafny verify dfyconfig.toml` checks all of it. Each component of the
repository has its own modules; where the source updates state, a class with the same fields does one
stretch between two `await`s per method and is tied to a step function, about whose runs the
theorems are.

- **Conversation branching** (`Branch*.dfy`): renaming every identity of a durable event log, through
  operations, baselines and observations, and recomputing the digests that link provider records.
  Renaming is a functor, it fails exactly on what was not collected, keeps everything but identities, linked
  digests stay linked, and a branch can be branched again.
- **Durable operations and the outbox** (`Durable*.dfy`, `External*.dfy`): two protocols over
  a compare-and-swap store with crashes; an effect happens at most once, after its durable mark, and the record
  tells what came of it.
- **Store adapter** (`HistoryTable.dfy`, `HistoryLaws.dfy`, `KeyOrder.dfy`, `StorePaging.dfy`): positions and
  flags that behave like a list, event numbering, and both pagination schemes with the loops that follow them.
- **Browser controller** (`Browser*.dfy`): generations, the request tail, the bounded delivery
  buffer, automatic refresh, close.
- **Globs** (`GlobPattern.dfy`, `Glob.dfy`): the compiler to regular expressions, a reader for the
  patterns it writes, and their meaning. Characters are UTF-16 code units, as without the `u` flag.
- **Document splitting** (`Doc*.dfy`, `SlicePacker.dfy`): bounded pieces and bodies, cut where a reader would.
- **Schedulers, locks, relays** (`Proof*.dfy`, `PathLock.dfy`, `AdmissionLanes.dfy`, `UriComponent.dfy`,
  `ChildRelay.dfy`, `RelayLaws.dfy`).
- **Bounded accounting** (`Utf8Align.dfy`, `ShellOutput.dfy`, `ChildBudget.dfy`).

Inputs from outside are parameters: identity minting, hashes, storage encodings and collation, provider
and transport outcomes, and what the store returns. SHA-256 is an arbitrary function from contents to
digests; where two rewritings are compared, the exact role of collisions is stated.

What the code does where one might expect otherwise, each with its exact condition proved:

- An approval request loses `isAutomatic` and its signature when a message is branched
  (`BranchMessages.MessageContentKept`); a settled run loses its owner and fencing token.
- A failure that a recovery has put on record can be written over by the success of a worker still alive; the
  failure code stays (`DurableOutcomes.PhaseTellsOutcome`, `DurableRuns.FailureIsWrittenOver`).
- Upserting a retired message overwrites its row and leaves it hidden (`HistoryTable.EveryMutationRefines`).
- A trailing `**` does not match across a line terminator (`Glob.TrailingStars`).
- Two branches in a row can differ from one when two provider messages share a digest in between
  (`BranchLogs.BranchOfBranch`, `BranchExamples.CollisionHappens`), or when another conversation is given the
  identity of the branch in between (`BranchObservations.ObservationCompose`).
- Rewriting an observation of a child defines approvals, so that whether a later event may refer to one
  depends on their order (`BranchEvents.EventsResolve`).
- A job both idle and exclusive runs twice, overlapping itself (`ProofPool.CalledWhenReturned`).
- A blocking report that names a new request twice has it presented twice
  (`ChildRelay.ReportIsExact`, `ChildRelay.RepeatedReportPresentsTwice`).
- The head of a shell preview is pushed forward to the end of a character, not pulled back as its comment
  says, and can exceed the budget by up to three bytes (`ShellOutput.HeadOverruns`; exactly when, for prefixes of
  UTF-8 text in `ShellOutput.PreviewFits`, for any bytes in `ShellOutput.PreviewFitsBytes`).
- Overlapping usage reports of one child lose a step (`ChildBudget.OverlapLosesAStep`, `ChildBudget.SumIsExact`).
- A run reserved again while it is the only one of its key becomes its own successor, and settling it
  once leaves it behind (`AdmissionLanes.QueuesExactly`).

## Model

| member | source | states |
|---|---|---|
| BranchRenaming.ReferencesResolve | packages/core/src/agent-runtime/branch-identities.ts:38-45 | a list of references resolves exactly when every one was collected, and then to the images of the identities |
| BranchRenaming.ReferencesCompose | packages/core/src/agent-runtime/branch-identities.ts:27-45 | resolving by one identity map and then by another is resolving once by their composition |
| BranchIdentities.Identities.Define | packages/core/src/agent-runtime/branch-identities.ts:27-37 | defining mints the digest of destination, request key, kind and identity, the same each time, and adds exactly that definition |
| BranchIdentities.Identities.Reference | packages/core/src/agent-runtime/branch-identities.ts:38-45 | a reference resolves to its definition and is recorded, or fails when there is none |
| BranchIdentities.Identities.CollectMessage | packages/core/src/agent-runtime/branch-identities.ts:49-55 | collecting a message defines exactly its own identity, its tool calls and its approval requests |
| BranchIdentities.Identities.CollectRun | packages/core/src/agent-runtime/branch-identities.ts:56-60 | collecting a run defines exactly the run, its assistant message and its last operation |
| BranchIdentities.Identities.CollectOperation | packages/core/src/agent-runtime/branch-identities.ts:61-84 | collecting a store operation defines exactly what its runs, messages and operation define |
| BranchJson.ToolJsonResolves | packages/core/src/agent-runtime/branch-messages.ts:60-92 | tool JSON is rewritten exactly when it is opaque or of a declared shape whose spill was collected; afterwards it holds only renamed spills |
| BranchJson.ToolJsonCompose | packages/core/src/agent-runtime/branch-messages.ts:60-92 | rewriting tool JSON twice is rewriting it once by the composed renaming |
| BranchMessages.MessageResolves | packages/core/src/agent-runtime/branch-messages.ts:94-152 | a message is rewritten exactly when it belongs to the source, its payloads are acceptable and all its references were collected; its identities are then the images |
| BranchMessages.MessageCompose | packages/core/src/agent-runtime/branch-messages.ts:135-152 | renaming messages is a functor: twice in a row is once by the composition |
| BranchMessages.MessageContentKept | packages/core/src/agent-runtime/branch-messages.ts:94-152 | all content but identities is kept if and only if no approval request carries `isAutomatic` or a signature, which the rewriting drops |
| BranchMessages.NoSourceIdentityLeft | packages/core/src/agent-runtime/branch-messages.ts:94-152 | a rewritten message mentions no identity of the source when the minting takes none of them as a target |
| BranchSlots.MessageKept | packages/core/src/agent-runtime/branch-messages.ts:94-152 | a rewritten message has the same content, part by part in order, if and only if no part drops approval facts, and each identity stands in its place under its new name, of its own kind |
| BranchSlots.RunKept | packages/core/src/agent-runtime/branch-messages.ts:154-181 | so has a rewritten run that is not settled |
| BranchSlots.SettledForgetsOwner | packages/core/src/agent-runtime/branch-messages.ts:154-181 | a settled run is rewritten like one that nobody owns |
| BranchMessages.RunResolves | packages/core/src/agent-runtime/branch-messages.ts:154-181 | a run is rewritten exactly when it belongs to the source and all its references were collected |
| BranchMessages.RunCompose | packages/core/src/agent-runtime/branch-messages.ts:154-181 | renaming runs is a functor, settled or not |
| BranchMessages.RunContentKept | packages/core/src/agent-runtime/branch-messages.ts:154-181 | a run keeps everything but identities; a settled one loses its owner and fencing token |
| BranchMessages.MessageDefinitionsRenamed | packages/core/src/agent-runtime/branch-identities.ts:49-55 | a rewritten message defines exactly the images of what the message defines |
| BranchTransitions.TransitionResolves | packages/core/src/agent-runtime/branch-transitions.ts:7-87 | every store operation is rewritten exactly when it belongs to the source and all its references were collected; what it refers to are then the images, and what else it says is in BranchContents.TransitionKept |
| BranchTransitions.IdentitiesParse | packages/core/src/agent-runtime/branch-transitions.ts:7-87 | the parse of the rewritten operation does not fail on its new identities: none is empty |
| BranchTransitions.TransitionCompose | packages/core/src/agent-runtime/branch-transitions.ts:7-87 | renaming store operations is a functor, for every operation |
| BranchTransitions.NoSourceIdentityLeft | packages/core/src/agent-runtime/branch-transitions.ts:7-87 | a rewritten operation, with the runs and messages it carries, mentions no identity of the source when the minting takes none of them as a target |
| BranchTransitions.OperationDefinitionsRenamed | packages/core/src/agent-runtime/branch-identities.ts:61-84 | a rewritten operation defines exactly the images of what the operation defines |
| BranchContents.TransitionKept | packages/core/src/agent-runtime/branch-transitions.ts:7-87 | a rewritten store operation, of whatever kind, has the same facts, flags, messages, run and absorptions if and only if no message in it drops approval facts, and every identity, owner and key stands in its place under its new name, of its own kind |
| BranchProvider.ProviderMessageResolves | packages/core/src/agent-runtime/branch-provider.ts:27-97 | a provider message is rewritten exactly when its opaque parts hold no runtime key and its calls and approvals were collected; what it says is in BranchKept.ProviderMessageKept |
| BranchProvider.ProviderMessageCompose | packages/core/src/agent-runtime/branch-provider.ts:27-97 | renaming provider messages is a functor |
| BranchKept.ProviderMessageKept | packages/core/src/agent-runtime/branch-provider.ts:27-97 | a rewritten provider message has the same role, options and parts in order, text and files included, if and only if no approval request carries the facts it drops; calls, approvals and spills stand in their places under their new names |
| BranchKept.JournalKept | packages/core/src/agent-runtime/branch-provider.ts:26-121 | so record by record for a journal: instructions and request and response facts stay, each link becomes the new digest of the renaming of the message it named, and digests match contents again |
| BranchProvider.JournalLinks | packages/core/src/agent-runtime/branch-provider.ts:26-121 | after any journal the digest map holds, for each digest stored, the digest of the renamed message it names, and the rewritten journal is consistent again |
| BranchProvider.JournalResolves | packages/core/src/agent-runtime/branch-provider.ts:26-121 | a journal is accepted exactly when digests match contents, requests name earlier messages, payloads are opaque and identities were collected |
| BranchProvider.BranchClosure | packages/core/src/agent-runtime/branch-provider.ts:26-121 | a rewritten journal passes the same checks under every renaming that defines the new identities |
| BranchProvider.RecordCompose | packages/core/src/agent-runtime/branch-provider.ts:26-121 | rewriting one record twice and rewriting it once by the composition differ in links only, and agree exactly when each link leads to one digest |
| BranchProvider.JournalCompose | packages/core/src/agent-runtime/branch-provider.ts:26-121 | for whole journals, any hash: the second rewriting succeeds exactly when the composed one does, and they agree if and only if for every link the latest message under its digest in between is given the same new digest as the message it means |
| BranchProvider.NoCollisionsSuffice | packages/core/src/agent-runtime/branch-provider.ts:26-121 | so they agree when no two different messages of the journal in between share a digest |
| BranchProvider.LinksKeepTheirMeaning | packages/core/src/agent-runtime/branch-provider.ts:98-121 | when no two different messages of the rewritten journal share a digest, its requests name the renamings of exactly the messages they named, in order |
| BranchProvider.NoSourceIdentityLeft | packages/core/src/agent-runtime/branch-provider.ts:26-121 | a rewritten journal mentions no identity of the source when the minting takes none of them as a target |
| BranchProvider.Provider.RekeyRecord | packages/core/src/agent-runtime/branch-provider.ts:26-124 | the object that fills its digest map record by record does one step of the journal rewriting |
| BranchProvider.Provider.RekeyAll | packages/core/src/agent-runtime/branch-events.ts:41-42 | and in a loop over the records, the whole of it |
| BranchBaseline.BaselineResolves | packages/core/src/agent-runtime/branch-events.ts:119-147 | a baseline is rewritten exactly when its runs, messages, terminal messages and admitted inputs are the source's own and all they refer to was collected; its identities are then the images |
| BranchBaseline.BaselineCompose | packages/core/src/agent-runtime/branch-events.ts:119-147 | renaming baselines is a functor |
| BranchBaseline.NoSourceIdentityLeft | packages/core/src/agent-runtime/branch-events.ts:119-147 | nor does a rewritten baseline |
| BranchBaseline.BaselineDefinitionsRenamed | packages/core/src/agent-runtime/branch-events.ts:50-56 | a rewritten baseline defines exactly the images of what the baseline defines |
| BranchContents.BaselineKept | packages/core/src/agent-runtime/branch-events.ts:119-147 | a rewritten baseline has the same facts, messages, runs, terminal messages and admitted inputs if and only if no message in it drops approval facts, and every identity stands in its place under its new name |
| BranchObservations.ObservationResolves | packages/core/src/agent-runtime/branch-observations.ts:73-157 | an observation is rewritten exactly when its kind is known, its payloads hold no runtime key and what it refers to is defined; it then refers to and defines exactly the images |
| BranchObservations.NoSourceIdentityLeft | packages/core/src/agent-runtime/branch-observations.ts:73-157 | a rewritten observation refers to and defines no identity of the source when the minting takes none of them as a target |
| BranchObservations.ObservationCompose | packages/core/src/agent-runtime/branch-observations.ts:115-145 | twice in a row is once by the composition if and only if no conversation other than the source is given the identity of the branch in between |
| BranchKept.ObservationKept | packages/core/src/agent-runtime/branch-observations.ts:73-157 | a rewritten observation has the same content; a conversation it names becomes the branch where it was the source and is renamed like a child otherwise |
| BranchEvents.EventsResolve | packages/core/src/agent-runtime/branch-events.ts:59-177 | events are rewritten exactly when each is acceptable and its payload read without loss, the provider journal is consistent, and each refers only to what was collected or what an observation before it has defined |
| BranchEvents.EventsProject | packages/core/src/agent-runtime/branch-events.ts:158-163 | whatever else the log holds, its provider records are rewritten as a journal of their own |
| BranchEvents.EventsCompose | packages/core/src/agent-runtime/branch-events.ts:59-177 | where the second renaming covers the first, both ways succeed, and they agree exactly when every link of the provider journal survives and no other conversation is taken for the branch in between |
| BranchWhole.EventKept | packages/core/src/agent-runtime/branch-events.ts:59-177 | a rewritten event keeps its version, its envelope and the content of its payload if and only if no message in it drops approval facts; a draft is marked as of a source and an observation as wrapped |
| BranchTold.TransitionDetermined | packages/core/src/agent-runtime/branch-transitions.ts:7-87 | content and identities tell all: the rewritten operation is the only acceptable one of the same content in which each identity is replaced by its image |
| BranchTold.ProviderMessageDetermined | packages/core/src/agent-runtime/branch-provider.ts:27-97 | and so is the rewritten provider message |
| BranchTold.BaselineDetermined | packages/core/src/agent-runtime/branch-events.ts:119-147 | the rewritten baseline |
| BranchTold.ObservationDetermined | packages/core/src/agent-runtime/branch-observations.ts:73-157 | and the rewritten observation |
| BranchEvents.LogDefinitionsRenamed | packages/core/src/agent-runtime/branch-events.ts:45-57 | rewritten events define exactly the images of what the events define, collected beforehand or while rewriting, in the destination conversation |
| BranchEvents.NoSourceIdentityLeft | packages/core/src/agent-runtime/branch-events.ts:59-177 | a whole rewritten log mentions no identity of the source, in whatever kind of event, when the minting takes none of them as a target |
| BranchLogs.CollectEvent | packages/core/src/agent-runtime/branch-events.ts:45-57 | collecting an event defines exactly its identity and what its payload defines; an unsupported version is refused |
| BranchDefined.EventTells | packages/core/src/agent-runtime/branch-identities.ts:49-84 | kind by kind: calls and approvals are defined by the call and request parts of messages an event brings in, operations by runs and recorded operations, messages by themselves and by runs, and nothing by anything else |
| BranchDefined.LogDefines | packages/core/src/agent-runtime/branch-events.ts:20-35 | a log defines the spills it is given, what its hydrated events define and what its retained messages define, and nothing else |
| BranchLogs.LogResolves | packages/core/src/agent-runtime/branch-events.ts:15-43 | a log can be branched exactly when its versions are supported, its events and retained messages are acceptable, no payload has an unknown field and all they refer to is known |
| BranchLogs.BranchIsHydrated | packages/core/src/agent-runtime/branch-events.ts:21-34 | a branch needs no retained message filled in again |
| BranchWhole.HydrationFillsIn | packages/core/src/agent-runtime/branch-events.ts:21-34 | an abandoned run without its message gets the retained one back, and no other event is changed |
| BranchWhole.BranchKeepsLog | packages/core/src/agent-runtime/branch-events.ts:15-43 | a branched log keeps the number, the order and the content of its events, with every identity in its place under its new name |
| BranchLogs.BranchDefines | packages/core/src/agent-runtime/branch-events.ts:20-35 | collecting a branch supplies exactly the renamed identities of its source |
| BranchLogs.BranchOfBranch | packages/core/src/agent-runtime/branch-events.ts:15-43 | whatever can be branched once can be branched again with only the renamed spills and retained messages supplied, and two branches are one by the composed minting if and only if every link of the provider journal survives the digests in between and no other conversation is taken for the branch in between |
| BranchLogs.BranchesAgree | packages/core/src/agent-runtime/branch-events.ts:15-43 | in particular when no two provider messages of the first branch share a digest and its identity is given to no other conversation |
| BranchExamples.ShortDigestsCanDiffer | packages/core/src/agent-runtime/branch-provider.ts:98-107 | a journal and a digest of one character that meet this condition |
| BranchExamples.CollisionMisleads | packages/core/src/agent-runtime/branch-provider.ts:98-121 | when two messages collide in between and not afterwards, a request of the twice rewritten journal names the other one |
| BranchExamples.CollisionHappens | packages/core/src/agent-runtime/branch-provider.ts:98-121 | with two renamings for which that happens |
| BranchExamples.AnswersCanBeBranched | packages/core/src/agent-runtime/branch-events.ts:15-43 | a log with a baseline, a child observation that defines approvals and a provider journal can be branched, and meets all that `BranchesAgree` asks |
| DurableSteps.SwapKeeps | packages/core/examples/tools/durable-async-operation-harness.ts:104-113 | a compare-and-swap write of a next record keeps the invariant and moves one record forward by one revision |
| DurableSteps.NextKeeps | packages/core/examples/tools/durable-async-operation-harness.ts:163-336 | every stretch of workers, handlers, progress reports, recoveries and crashes keeps the invariant |
| DurableSafety.RunKeeps | packages/core/examples/tools/durable-async-operation-harness.ts:200-336 | the invariant holds after every interleaving |
| DurableSafety.AtMostOneEffect | packages/core/examples/tools/durable-async-operation-harness.ts:219-256 | over every interleaving `submit` is called at most once per operation, with the request and under the effect key that are on record |
| DurableSafety.SubmitAfterDurable | packages/core/examples/tools/durable-async-operation-harness.ts:227-243 | the step that calls `submit` calls it once and finds the stored operation past pending and no longer not-dispatched |
| DurableSafety.OnlySubmitSubmits | packages/core/examples/tools/durable-async-operation-harness.ts:314-336 | no other step, recovery included, calls `submit` |
| DurableSafety.RecordsMoveForward | packages/core/examples/tools/durable-async-operation-harness.ts:104-113 | stored revisions go up by one, a phase never returns to pending and the dispatch state never moves back |
| DurableSafety.SettledHoldsReceipt | packages/core/examples/tools/durable-async-operation-harness.ts:200-217 | pending if and only if not dispatched; succeeded or failed only when acknowledged with a receipt |
| DurableOutcomes.PrepareMarks | packages/core/examples/tools/durable-async-operation-harness.ts:226-238 | the mark is made exactly when nobody has written since the read; it sets phase, attempt, effect key and the next fencing token, and nothing else |
| DurableOutcomes.ReportProgresses | packages/core/examples/tools/durable-async-operation-harness.ts:243-255 | a report sets the progress and nothing else, exactly when nobody has written since its read |
| DurableOutcomes.CancelAsks | packages/core/examples/tools/durable-async-operation-harness.ts:163-173 | a cancel request sets its flag and nothing else |
| DurableOutcomes.CommitSettles | packages/core/examples/tools/durable-async-operation-harness.ts:200-217 | a success is stored as succeeded with exactly its receipt, result and artifacts and progress 1, a failure as failed with exactly its receipt and code; request, attempt, token, effect key and cancel flag stay; this happens exactly when nobody has written since the read |
| DurableOutcomes.RecommitSettles | packages/core/examples/tools/durable-async-operation-harness.ts:326-334 | and so it is when a recovery commits |
| DurableOutcomes.NextPatches | packages/core/examples/tools/durable-async-operation-harness.ts:104-113 | over any step a stored record changes in one of these ways or not at all |
| DurableOutcomes.RecordTellsOutcomes | packages/core/examples/tools/durable-async-operation-harness.ts:200-217 | after every run a record holds exactly what the outcomes committed for it say, each field from the last outcome that sets it |
| DurableOutcomes.PhaseTellsOutcome | packages/core/examples/tools/durable-async-operation-harness.ts:257-267 | a record succeeded exactly when it holds a result and failed exactly when it holds a code, if and only if its operation was not settled both ways |
| DurableOutcomes.OutcomesAreAnswers | packages/core/examples/tools/durable-async-operation-harness.ts:239-325 | what is committed is what the provider answered to this submission or this question |
| DurableRuns.AdmissionLaunches | packages/core/examples/tools/durable-async-operation-harness.ts:303-312 | a new operation is stored and its worker launched |
| DurableRuns.StartSubmits | packages/core/examples/tools/durable-async-operation-harness.ts:219-243 | a worker on a pending operation marks it and submits what it has marked |
| DurableRuns.AnswerIsRecorded | packages/core/examples/tools/durable-async-operation-harness.ts:257-267 | the answer is put on record over whatever the operation has become meanwhile |
| DurableRuns.WorkerSucceeds | packages/core/examples/tools/durable-async-operation-harness.ts:219-267 | undisturbed, a worker brings its operation from pending to succeeded with what the provider returned |
| DurableRuns.ReportIsRecorded | packages/core/examples/tools/durable-async-operation-harness.ts:243-255 | progress reported while the operation runs is put on record |
| DurableRuns.CancelIsRecorded | packages/core/examples/tools/durable-async-operation-harness.ts:163-173 | a cancel request is put on record unless the operation is settled |
| DurableRuns.RecoveryGoesOn | packages/core/examples/tools/durable-async-operation-harness.ts:314-319 | recovery launches a record that was never marked, asks about one in flight and passes over one that is settled |
| DurableRuns.RecoveryIsTold | packages/core/examples/tools/durable-async-operation-harness.ts:320-333 | it commits what it is told and goes on at once where nothing is known |
| DurableRuns.CrashStops | packages/core/examples/tools/durable-async-operation-harness.ts:314-334 | a crash stops its victims where they wait; what is on record stays for a recovery |
| DurableRuns.RecoveryIsRecorded | packages/core/examples/tools/durable-async-operation-harness.ts:314-334 | what it hears about an operation in flight is put on record |
| DurableRuns.FailureIsWrittenOver | packages/core/examples/tools/durable-async-operation-harness.ts:257-267 | beside a recovery that puts a failure on record, a live worker writes its success over it |
| DurableHarness.Harness.CompareAndSwap | packages/core/examples/tools/durable-async-operation-harness.ts:206-216 | the store writes exactly when the revision is the expected one |
| DurableHarness.Harness.TakeUp | packages/core/examples/tools/durable-async-operation-harness.ts:219-225 | a worker takes an operation up only while it is pending |
| DurableHarness.Harness.MarkDispatched | packages/core/examples/tools/durable-async-operation-harness.ts:226-238 | the write before the effect; losing it ends the worker |
| DurableHarness.Harness.CallProvider | packages/core/examples/tools/durable-async-operation-harness.ts:239-243 | the submission, once the mark is durable |
| DurableHarness.Harness.WriteProgress | packages/core/examples/tools/durable-async-operation-harness.ts:244-255 | a progress report writes over what it read and nothing else |
| DurableHarness.Harness.CommitTerminal | packages/core/examples/tools/durable-async-operation-harness.ts:257-268 | the final commit, over the latest record |
| DurableHarness.Harness.RecoverOne | packages/core/examples/tools/durable-async-operation-harness.ts:314-325 | recovery relaunches what was not dispatched and asks the provider about the rest |
| DurableHarness.Harness.SettleRecovered | packages/core/examples/tools/durable-async-operation-harness.ts:326-334 | recovery commits what the provider reports |
| ExternalOutbox.NextKeeps | packages/core/examples/agent-runtime/external-channel-harness.ts:140-182 | every stretch of pumps, flushes, reconciliations and deaths keeps the invariant and only moves deliveries forward |
| ExternalOutbox.RunKeeps | packages/core/examples/agent-runtime/external-channel-harness.ts:140-269 | the invariant holds after every interleaving of any number of harnesses over one store |
| ExternalOutbox.SentAtMostOnce | packages/core/examples/agent-runtime/external-channel-harness.ts:140-163 | each delivery is sent at most once across all harnesses, with the event on record and under the attempt that marked it |
| ExternalOutbox.SendAfterMark | packages/core/examples/agent-runtime/external-channel-harness.ts:143-156 | the step that sends finds the delivery durably marked, by this very attempt unless it has moved on since |
| ExternalOutbox.OnlySendSends | packages/core/examples/agent-runtime/external-channel-harness.ts:256-269 | no other step, reconciliation included, sends |
| ExternalOutbox.OnePumpPerHarness | packages/core/examples/agent-runtime/external-channel-harness.ts:165-182 | each harness has at most one pump running, the one it remembers |
| ExternalOutbox.DeliveriesMoveForward | packages/core/examples/agent-runtime/external-channel-harness.ts:140-163 | revisions go up by one and states never move back |
| ExternalRuns.MarkIsRecorded | packages/core/examples/agent-runtime/external-channel-harness.ts:143-149 | a mark is written exactly when the delivery is as it was read, and sets the attempt and nothing else |
| ExternalRuns.ReceiptIsRecorded | packages/core/examples/agent-runtime/external-channel-harness.ts:157-161 | a receipt is written over the marked record only, and is the one the adapter returned |
| ExternalRuns.ReconciliationIsRecorded | packages/core/examples/agent-runtime/external-channel-harness.ts:265-267 | and so by a reconciliation |
| ExternalRuns.RecordTellsState | packages/core/examples/agent-runtime/external-channel-harness.ts:140-163 | after every run: an attempt on record exactly when a delivery is no longer not-dispatched, a receipt exactly when it is acknowledged |
| ExternalRuns.ReceiptsWereHeard | packages/core/examples/agent-runtime/external-channel-harness.ts:150-161 | every receipt on record is one that the adapter gave for that delivery, at sending or at reconciling |
| ExternalRuns.PumpDelivers | packages/core/examples/agent-runtime/external-channel-harness.ts:140-163 | undisturbed, a pump marks the delivery it fetched, sends it once under that attempt, puts the receipt on record and goes on |
| ExternalRuns.FlushBegins | packages/core/examples/agent-runtime/external-channel-harness.ts:179-182 | a flush begins a pump exactly when the harness has none |
| ExternalRuns.PumpEnds | packages/core/examples/agent-runtime/external-channel-harness.ts:165-177 | a pump ends when nothing is left to fetch, or behind an error, and the harness then has none |
| ExternalRuns.DeathStops | packages/core/examples/agent-runtime/external-channel-harness.ts:138-182 | a harness that dies takes its own pump along and nothing else |
| ExternalRuns.EnqueueIsStored | packages/core/examples/agent-runtime/external-channel-harness.ts:242-252 | an enqueued event is stored as not dispatched, unless the store knows its key |
| ExternalRuns.ReconciliationAsks | packages/core/examples/agent-runtime/external-channel-harness.ts:256-268 | reconciliation takes one delivery after the other and writes what the adapter knows |
| ExternalRuns.ReconciliationSettles | packages/core/examples/agent-runtime/external-channel-harness.ts:256-269 | a delivery that was sent and never acknowledged is settled without being sent again |
| ExternalOutbox.Outbox.FlushHarness | packages/core/examples/agent-runtime/external-channel-harness.ts:179-182 | a flush begins a pump only when none runs for the harness |
| ExternalOutbox.Outbox.MarkDelivery | packages/core/examples/agent-runtime/external-channel-harness.ts:141-149 | the write before sending; losing it goes back for the next delivery |
| ExternalOutbox.Outbox.SendDelivery | packages/core/examples/agent-runtime/external-channel-harness.ts:150-156 | the send itself |
| ExternalOutbox.Outbox.AcknowledgeDelivery | packages/core/examples/agent-runtime/external-channel-harness.ts:157-163 | the receipt is written over the marked record only |
| ExternalOutbox.Outbox.SettleUncertain | packages/core/examples/agent-runtime/external-channel-harness.ts:256-269 | reconciliation writes a receipt and never sends |
| HistoryTable.Load | examples/agent-store-prisma/adapter.ts:368-374 | the rows loaded are the active ones, each once, in increasing position |
| HistoryTable.ListsUnique | examples/agent-store-prisma/adapter.ts:368-374 | there is only one such list, so loading is determined by the rows |
| HistoryTable.FoundMeansReplaceable | examples/agent-store-prisma/adapter.ts:386-398 | the row count check of a compaction passes exactly when the range is not empty, names no message twice and is all active |
| HistoryTable.EveryMutationRefines | examples/agent-store-prisma/adapter.ts:375-477 | each mutation of the rows lists what the same mutation of a plain list gives, refusals included |
| HistoryTable.ApplyRefines | examples/agent-store-prisma/adapter.ts:375-477 | loading after a mutation is the mutation of what was loaded, and active positions stay pairwise distinct |
| HistoryTable.TableIsList | examples/agent-store-prisma/adapter.ts:368-477 | after any sequence of mutations the table loads exactly what the plain list holds; inactive rows never show |
| HistoryLaws.SeedComesFirst | examples/agent-store-prisma/adapter.ts:461-474 | a seed of a new message is loaded in front of everything, which stays as it was |
| HistoryLaws.NewComesLast | examples/agent-store-prisma/adapter.ts:461-474 | an admitted, upserted or inserted new message without an anchor is loaded behind everything |
| HistoryLaws.InsertComesBefore | examples/agent-store-prisma/adapter.ts:423-449 | a new message with an anchor is loaded right before it; it is refused exactly when the anchor is not active |
| HistoryLaws.KnownStaysInPlace | examples/agent-store-prisma/adapter.ts:450-459 | an active message is exchanged where it stands, whatever mutation brings it and with whatever anchor |
| HistoryLaws.RetiredStaysHidden | examples/agent-store-prisma/adapter.ts:450-459 | a retired one stays hidden and nothing loaded changes |
| HistoryLaws.SummaryStandsFirst | examples/agent-store-prisma/adapter.ts:386-413 | a range is replaced exactly when it names some messages, each once and active, and the summary is new; the summary stands where the first of them stood, all of them are gone and the others keep their order |
| HistoryTable.HistoryStore.Apply | examples/agent-store-prisma/adapter.ts:375-477 | one transaction on the rows of the message's conversation; a refusal and other conversations leave the table as it was |
| HistoryTable.HistoryStore.Compact | examples/agent-store-prisma/adapter.ts:386-413 | a range is replaced by its summary at the first replaced place |
| HistoryTable.HistoryStore.Write | examples/agent-store-prisma/adapter.ts:414-476 | update in place, insert before an anchor, prepend a seed or append |
| StorePaging.EventStore.Append | examples/agent-store-prisma/adapter.ts:484-507 | appended events are numbered 1 to n without gaps |
| StorePaging.ListEvents | examples/agent-store-prisma/adapter.ts:508-542 | a page is the first rows asked for, in order, with a next number exactly when rows asked for are missing from it |
| StorePaging.LastPageIsComplete | examples/agent-store-prisma/adapter.ts:536-541 | a page without a next number is complete if and only if the limit is at least one or nothing was asked for |
| StorePaging.PagesJoin | examples/agent-store-prisma/adapter.ts:508-542 | whatever the page size, the next page begins right behind the last event of this one and has strictly less left to read |
| StorePaging.ReadPages | packages/core/src/agent-runtime/children-spawn.ts:49-60 | for pages of any size from one up the reading loop ends with exactly the events from 1 to the given point, each once, in order |
| StorePaging.ReadSeedEvents | packages/core/src/agent-runtime/children-spawn.ts:43-61 | and so it does in pages of a thousand |
| StorePaging.SeedIsPrefix | packages/core/src/agent-runtime/children-spawn.ts:43-61 | from a gapless log those are the first events appended |
| StorePaging.StorageOrderIsTotal | examples/agent-store-prisma/adapter.ts:546-561 | conversation then run, by injective storage encodings, orders all runs strictly |
| StorePaging.ConversationsStandTogether | examples/agent-store-prisma/adapter.ts:546-561 | in it the runs of a conversation stand together, in the order of their identities |
| StorePaging.ActiveIsUnsettled | examples/agent-store-prisma/adapter.ts:546-561 | the runs listed are exactly those stored that have not come to an end |
| StorePaging.ScanRecoverable | examples/agent-store-prisma/adapter.ts:544-580 | a page of active runs behind the cursor in key order; only a cursor with an empty part is refused |
| StorePaging.CollectRecoverable | packages/core/src/agent-runtime/runtime-recovery.ts:119-136 | however runs fall on pages, the first `maxRuns` active runs in key order are collected, each once; stopped early, the first ones in key order |
| BrowserRequests.QueueNextKeeps | packages/core/src/agent-runtime/browser-controller.ts:192-273 | every step keeps requests serialised, pending requests within capacity and `busy` exact |
| BrowserDeliveries.ClientNextKeeps | packages/core/src/agent-runtime/browser-controller.ts:236-318 | every step keeps the buffer within its bounds and the view free of earlier connections |
| BrowserSafety.RunKeeps | packages/core/src/agent-runtime/browser-controller.ts:98-325 | both hold after every run |
| BrowserSafety.BufferIsBounded | packages/core/src/agent-runtime/browser-controller.ts:274-291 | buffered deliveries, their bytes and pending requests never exceed their limits, and the byte counter is the sum of what is buffered |
| BrowserSafety.BusyIsExact | packages/core/src/agent-runtime/browser-controller.ts:192-248 | while open, `busy` holds exactly when a request of the current generation executes, and at most one ever does |
| BrowserSafety.DeliveriesAreIsolated | packages/core/src/agent-runtime/browser-controller.ts:236-296 | what arrives during a live request is applied at its settlement, all of it once and in order, or, exactly when a bound is exceeded, none of it and the overflow is reported |
| BrowserReplies.ReplyIsShown | packages/core/src/agent-runtime/browser-controller.ts:211-248 | what settles a request shows, outcome by outcome: a snapshot of the conversation behind the view and then the events that arrived, ready or disconnected without error; a foreign snapshot, a lost or misaddressed reply CONTROL_REQUEST_FAILED; a refusal its code; no snapshot no change; unless something that arrived fails |
| BrowserReplies.SnapshotResets | packages/core/src/agent-runtime/browser-controller.ts:222-225 | automatic refreshes start over exactly with a snapshot that leaves nothing to catch up |
| BrowserReplies.DeliveryIsShown | packages/core/src/agent-runtime/browser-controller.ts:154-165 | while nothing executes a delivery is shown at once: an event behind the view, withdrawn access and overflow as errors |
| BrowserReplies.ForeignDeliveryIsNot | packages/core/src/agent-runtime/browser-controller.ts:274-277 | a delivery for another conversation, or after closing, changes nothing |
| BrowserReplies.ConnectionIsShown | packages/core/src/agent-runtime/browser-controller.ts:297-318 | a connection change shows an empty view, fences off what is pending and attaches when it came up |
| BrowserReplies.CommandIsQueued | packages/core/src/agent-runtime/browser-controller.ts:250-273 | a request is queued behind the one before it exactly while there is room and the controller is open |
| BrowserReplies.RefreshIsShown | packages/core/src/agent-runtime/browser-controller.ts:176-190 | a scheduled refresh is counted and queued, and at the fourth RESYNC_EXHAUSTED is shown instead |
| BrowserReplies.DueRefreshIsScheduled | packages/core/src/agent-runtime/browser-controller.ts:166-176 | behind a delivery shown and behind a clean-up a refresh is scheduled exactly when the client is ready, idle, has room and lacks something, or one was |
| BrowserReplies.TurnIsTaken | packages/core/src/agent-runtime/browser-controller.ts:192-210 | a request whose turn has come is sent exactly when it is of this connection and that is up |
| BrowserReplies.OldestCanGoOn | packages/core/src/agent-runtime/browser-controller.ts:262-271 | in every run the oldest unsettled request of the generation can start, is being executed or can be cleaned up |
| BrowserReplies.AttachShowsSnapshot | packages/core/src/agent-runtime/browser-controller.ts:297-318 | undisturbed, the first attach ends ready with exactly its snapshot in view |
| BrowserSafety.BusyViewWaits | packages/core/src/agent-runtime/browser-controller.ts:274-291 | while a request executes no delivery touches the view |
| BrowserSafety.ViewIsFenced | packages/core/src/agent-runtime/browser-controller.ts:297-313 | the view never holds an event or a snapshot of an earlier connection |
| BrowserSafety.StaleRequestsAreInert | packages/core/src/agent-runtime/browser-controller.ts:211-268 | starting, settling or cleaning up a request of an earlier generation changes that request alone, but for two things of a clean-up: the request is no longer pending, and a refresh is scheduled exactly when one is due |
| BrowserSafety.StaleCleanUpsAreInert | packages/core/src/agent-runtime/browser-controller.ts:255-268 | in a run such a clean-up takes something off what is pending only after closing, and schedules a refresh only before; the client never changes |
| BrowserSafety.AutomaticIsBounded | packages/core/src/agent-runtime/browser-controller.ts:166-191 | at most three automatic refreshes go out between resets |
| BrowserSafety.ClosedForGood | packages/core/src/agent-runtime/browser-controller.ts:319-325 | after closing, no further step changes what the application sees |
| BrowserDeliveries.ApplyAllAppends | packages/core/src/agent-runtime/browser-controller.ts:154-165 | applying deliveries folds exactly their events into the view, in order |
| BrowserConversation.ConversationController.SendRequest | packages/core/src/agent-runtime/browser-controller.ts:250-273 | a request without capacity is refused, any other is queued behind the tail |
| BrowserConversation.ConversationController.BeginExecute | packages/core/src/agent-runtime/browser-controller.ts:192-210 | a call is made exactly for a request of the current generation on an open, connected controller |
| BrowserConversation.ConversationController.EndExecute | packages/core/src/agent-runtime/browser-controller.ts:211-249 | the reply and then the buffer, or nothing for a stale request |
| BrowserConversation.ConversationController.ReleaseBuffer | packages/core/src/agent-runtime/browser-controller.ts:236-248 | the loop applies the buffer in order and empties it |
| BrowserConversation.ConversationController.TakeReply | packages/core/src/agent-runtime/browser-controller.ts:211-235 | how a reply, a refusal or a failure changes the client |
| BrowserConversation.ConversationController.FinishRequest | packages/core/src/agent-runtime/browser-controller.ts:262-268 | a settled request frees its capacity and may schedule a refresh |
| BrowserConversation.ConversationController.OnDelivery | packages/core/src/agent-runtime/browser-controller.ts:274-296 | buffer, drop the buffer on overflow, or apply at once |
| BrowserConversation.ConversationController.Changed | packages/core/src/agent-runtime/browser-controller.ts:297-318 | a connection change renews everything but unfinished calls and attaches |
| BrowserConversation.ConversationController.RunScheduledRefresh | packages/core/src/agent-runtime/browser-controller.ts:176-190 | the scheduled microtask counts its attempts and gives up at the fourth |
| BrowserConversation.ConversationController.CloseController | packages/core/src/agent-runtime/browser-controller.ts:319-325 | closing moves on the generation and the status |
| Glob.CompileWorkspaceGlob | packages/core/src/agent-runtime/coding-tool-listing.ts:89-116 | the index loop writes the pieces of the glob between `^` and `$` |
| Glob.CompiledParses | packages/core/src/agent-runtime/coding-tool-listing.ts:89-116 | for every glob the emitted text is a pattern of ECMA-262 and reads back as the intended terms; escapes read back as the literal |
| Glob.CompilationKeepsMeaning | packages/core/src/agent-runtime/coding-tool-listing.ts:80-116 | for every glob and path the emitted regular expression matches exactly when the direct recursive matcher does |
| Glob.LiteralGlobs | packages/core/src/agent-runtime/coding-tool-listing.ts:85-88 | a glob without wildcards matches itself alone, regular-expression punctuation included |
| Glob.StarAlone | packages/core/src/agent-runtime/coding-tool-listing.ts:106-107 | `*` alone matches exactly what holds no slash |
| Glob.QuestionAlone | packages/core/src/agent-runtime/coding-tool-listing.ts:109-112 | `?` alone matches exactly one character that is no slash |
| Glob.StarsSlashAlone | packages/core/src/agent-runtime/coding-tool-listing.ts:95-101 | `**/` alone matches exactly any number of whole directories |
| Glob.SlashesAgree | packages/core/src/agent-runtime/coding-tool-listing.ts:106-112 | without `**` a path has exactly the slashes the glob writes |
| Glob.GlobsConcatenate | packages/core/src/agent-runtime/coding-tool-listing.ts:89-116 | a glob that does not end in `*`, followed by another, matches exactly the paths that can be cut into a match of each |
| Glob.TrailingStars | packages/core/src/agent-runtime/coding-tool-listing.ts:95-104 | a trailing `**` behind such a glob matches exactly what is left of the path after a match of the glob, where that holds no line terminator; not everything below, as the comment says |
| GlobPattern.StarUnfolds | packages/core/src/agent-runtime/coding-tool-listing.ts:115-115 | a repetition of a pattern takes one more piece or gives way to what follows |
| DocSplitter.SectionsAt | scripts/gen-llms.ts:387-398 | the loop over lines cuts at headings of the level outside code fences |
| DocSplitter.ParagraphsOf | scripts/gen-llms.ts:400-410 | the loop over lines cuts at blank lines outside code fences |
| DocSplitter.SectionsDivide | scripts/gen-llms.ts:387-398 | sections keep every character but white space, in order, are never blank, and have no longer line than the text |
| DocSplitter.ParagraphsDivide | scripts/gen-llms.ts:400-410 | and so do paragraphs |
| DocSlices.SectionsAreSlices | scripts/gen-llms.ts:388-398 | sections are stretches of the text, one behind the other, with white space between them |
| DocSlices.ParagraphsAreSlices | scripts/gen-llms.ts:401-410 | and so are paragraphs |
| DocCuts.FencesAreMarked | scripts/gen-llms.ts:385 | a fence line is exactly white space and then three backticks or three tildes |
| DocCuts.HeadingsBegin | scripts/gen-llms.ts:389 | a heading line of a level is exactly that many hashes and then a blank |
| DocCuts.SectionsAreCut | scripts/gen-llms.ts:388-398 | the lines are grouped without losing any, and a group begins exactly at a heading of the level with an even number of fence lines up to it |
| DocCuts.ParagraphsAreCut | scripts/gen-llms.ts:401-410 | a group ends exactly at a blank line with an even number of fence lines up to it, and only these lines are left out |
| DocCuts.LowestLevelSplits | scripts/gen-llms.ts:430-433 | headings split at the first level from 2 to 4 that gives several sections, or not at all |
| DocSplitter.PiecesAreSmaller | scripts/gen-llms.ts:430-440 | each of several pieces has strictly less text, so that splitting terminates |
| DocSplitter.PackPieces | scripts/gen-llms.ts:412-425 | the greedy loop packs as its specification does |
| DocSplitter.PackedFits | scripts/gen-llms.ts:412-425 | pieces that fit are packed into pieces that fit |
| DocSplitter.PackedKeeps | scripts/gen-llms.ts:412-425 | packing loses nothing but white space |
| DocSplitter.PackedIsTight | scripts/gen-llms.ts:412-425 | no two neighbouring packed pieces would have fitted together |
| DocSplitter.SplitToFit | scripts/gen-llms.ts:427-446 | it terminates; without an error every piece is at most `max` bytes and together they keep all characters but white space in order; when every line fits there is no error |
| DocWoven.SplitIsWoven | scripts/gen-llms.ts:428-446 | the pieces are made of stretches of the text in order: nothing but white space is added or dropped, nothing repeated or exchanged, and inside a stretch not even white space |
| DocWoven.SectionsComeFirst | scripts/gen-llms.ts:429-433 | a text that fits is not cut; one that does not is cut at headings where that helps, and no piece holds text of two sections |
| DocWoven.ParagraphsComeNext | scripts/gen-llms.ts:434-445 | otherwise at paragraphs, and only where these do not help at lines; then neighbours that fit together are joined |
| DocSplitter.PackLines | scripts/gen-llms.ts:442-445 | the error is raised exactly when one of the lines is too long |
| SlicePacker.SplitUnits | scripts/gen-llms.ts:480-485 | every piece leaves room for the banner of its source |
| SlicePacker.UnitStaysWhole | scripts/gen-llms.ts:480-485 | a unit stays whole exactly when it fits under a banner with a blank line on either side |
| SlicePacker.ChunkFits | scripts/gen-llms.ts:480-501 | a piece and the banner it may need never exceed the budget |
| SlicePacker.PackUnits | scripts/gen-llms.ts:475-508 | no body exceeds the budget; the bodies show the pieces in order, each under a banner of its own source that says "continued" exactly when the source was shown before; a part is begun exactly when the next piece, with the banner it needs, would not have fitted |
| SlicePacker.PiecesKeepSources | scripts/gen-llms.ts:480-485 | source by source the pieces keep the text of the units in order, but for white space |
| SlicePacker.BodiesKeepSources | scripts/gen-llms.ts:475-508 | and so do the bodies they are packed into |
| SlicePacker.OpensWithBanner | scripts/gen-llms.ts:486-507 | each part opens with the banner of its first source |
| SlicePacker.BannerTells | scripts/gen-llms.ts:471-473 | a banner tells its source, and of a source whether it continues |
| ProofPlan.SharedIsLongestFirst | packages/core/scripts/consumer-lane/installed-proof-runner.ts:76-79 | shared jobs are taken longest first, equals in the order of the list |
| ProofPlan.PlanPlacesJobs | packages/core/scripts/consumer-lane/installed-proof-runner.ts:71-96 | an idle job runs aside, if several may run at once, an exclusive one alone, even if it has run aside, any other is shared; each has one place of a kind, and aside and alone the order is that of the list |
| ProofPool.NextKeeps | packages/core/scripts/consumer-lane/installed-proof-runner.ts:52-98 | every step of jobs, workers and the main function keeps the invariant |
| ProofPool.PoolIsBounded | packages/core/scripts/consumer-lane/installed-proof-runner.ts:80-91 | shared jobs in flight never exceed the width |
| ProofPool.ExclusiveIsAlone | packages/core/scripts/consumer-lane/installed-proof-runner.ts:92-96 | an exclusive job in flight has only idle ones beside it |
| ProofPool.NothingBeginsAfterFailure | packages/core/scripts/consumer-lane/installed-proof-runner.ts:80-96 | no job begins after the first recorded failure |
| ProofPool.VerdictIsFinal | packages/core/scripts/consumer-lane/installed-proof-runner.ts:91-98 | it throws or returns only when every call has settled, throws exactly when one failed, and a normal return means every repetition of every job succeeded |
| ProofPool.CalledAtMostOnce | packages/core/scripts/consumer-lane/installed-proof-runner.ts:71-96 | a job not both idle and exclusive, or any job one at a time, starts at most once |
| ProofPool.CalledWhenReturned | packages/core/scripts/consumer-lane/installed-proof-runner.ts:71-98 | in a run that returns every job was started exactly once, and twice if and only if it is idle and exclusive and several may run at once |
| ProofPool.IdleExclusiveRunsTwice | packages/core/scripts/consumer-lane/installed-proof-runner.ts:73-96 | the second start of such a job overlaps its first |
| ProofRuns.PoolIsFilled | packages/core/scripts/consumer-lane/installed-proof-runner.ts:80-91 | the workers that begin together take the first shared jobs, as many as may run at once, or all when there are fewer |
| ProofRuns.EveryRunIsFinite | packages/core/scripts/consumer-lane/installed-proof-runner.ts:52-98 | however attempts end, a run makes no more moves than there is to do at its beginning |
| ProofRuns.SomethingMoves | packages/core/scripts/consumer-lane/installed-proof-runner.ts:82-98 | before its end some attempt is in flight, or a worker or the main function has a next step |
| ProofRuns.QuietRunsAreOver | packages/core/scripts/consumer-lane/installed-proof-runner.ts:91-98 | a run that cannot go on has thrown or returned, and has returned if and only if no attempt failed |
| ProofPool.Runner.EndAttempt | packages/core/scripts/consumer-lane/installed-proof-runner.ts:52-69 | an attempt leads to the next one or to the verdict |
| ProofPool.Runner.Work | packages/core/scripts/consumer-lane/installed-proof-runner.ts:82-89 | a worker takes the next job unless something failed |
| ProofPool.Runner.GoOn | packages/core/scripts/consumer-lane/installed-proof-runner.ts:91-98 | the main function, from one `await` to the next |
| UriComponent.DecodeUndoes | packages/core/src/agent-runtime/child-blocking.ts:42-46 | percent encoding is undone by decoding, so it is injective |
| UriComponent.UnreservedStays | packages/core/src/agent-runtime/child-blocking.ts:42-46 | it leaves a text as it is exactly when all its characters are unreserved |
| UriComponent.NoColon | packages/core/src/agent-runtime/child-blocking.ts:42-46 | it never writes `:` |
| ChildRelay.ScopedIdsDiffer | packages/core/src/agent-runtime/child-blocking.ts:42-46 | no two requests of whatever children share a parent-scoped identity |
| ChildRelay.PresentedOnce | packages/core/src/agent-runtime/child-blocking.ts:56-118 | if no report repeats itself, each request is durably presented at most once |
| ChildRelay.ReportIsExact | packages/core/src/agent-runtime/child-blocking.ts:66-113 | once everything new in a report is on record, no request is on record twice if and only if the new part of the report names none twice |
| ChildRelay.RepeatedReportPresentsTwice | packages/core/src/agent-runtime/child-blocking.ts:66-113 | a report that repeats a request has it presented twice |
| ChildRelay.AnsweredOnce | packages/core/src/agent-runtime/child-blocking.ts:125-154 | an answer is taken by a child at most once and only of a request on record, an answered request is never pending again, and it alone is recorded as resolved, at most once |
| ChildRelay.AnswerReachesItsRequest | packages/core/src/agent-runtime/child-blocking.ts:129-140 | the answer goes to the child and the request the parent was shown |
| ChildRelay.SiblingsUntouched | packages/core/src/agent-runtime/child-blocking.ts:140-142 | answering touches no other request |
| ChildRelay.RunKeeps | packages/core/src/agent-runtime/child-blocking.ts:28-160 | over every run, retirements included, pending requests are on record under their own identities and answered ones are retired |
| RelayLaws.FreshPicks | packages/core/src/agent-runtime/child-blocking.ts:66-72 | of a report exactly the requests neither pending nor retired are new, in the order of the report |
| RelayLaws.PollShowsReport | packages/core/src/agent-runtime/child-blocking.ts:56-118 | a whole poll, undisturbed: what was pending stays, and of what the child reports everything but the retired is pending with this parent, with its child, kind and batch |
| RelayLaws.FailedAppendShowsNothing | packages/core/src/agent-runtime/child-blocking.ts:94-112 | an append that fails ends the poll without showing its request |
| RelayLaws.AnswerIsRouted | packages/core/src/agent-runtime/child-blocking.ts:125-160 | a whole answer, undisturbed: when it is refused, that a child failing to take it leaves everything as it was, and that one taken retires this request alone and is recorded |
| RelayLaws.RetiringIsExact | packages/core/src/agent-runtime/child-blocking.ts:47-54 | the end of a child retires exactly its requests, whatever is under way |
| RelayLaws.RetiredStaysAway | packages/core/src/agent-runtime/child-blocking.ts:28-113 | while no report names a request twice nothing retired is pending or comes to be |
| ChildRelay.Relay.TakeReport | packages/core/src/agent-runtime/child-blocking.ts:62-72 | only what is neither pending nor retired is presented |
| ChildRelay.Relay.EndPresentation | packages/core/src/agent-runtime/child-blocking.ts:94-112 | a request is published only after its record was written |
| ChildRelay.Relay.BeginAnswer | packages/core/src/agent-runtime/child-blocking.ts:129-139 | when an answer is refused |
| ChildRelay.Relay.EndAnswer | packages/core/src/agent-runtime/child-blocking.ts:140-142 | a failed answer leaves the request pending |
| ChildRelay.Relay.EndRecording | packages/core/src/agent-runtime/child-blocking.ts:143-153 | the resolution is recorded behind the answer |
| ChildRelay.Relay.RetireChild | packages/core/src/agent-runtime/child-blocking.ts:47-54 | exactly the requests of the child are retired |
| PathLock.NextKeeps | packages/core/src/agent-runtime/coding-tool-paths.ts:231-249 | every call, entry, exit and settling keeps the chains in order and the table exact |
| PathLock.MutualExclusion | packages/core/src/agent-runtime/coding-tool-paths.ts:230-249 | at most one caller is inside `work` for a target |
| PathLock.FirstComeFirstServed | packages/core/src/agent-runtime/coding-tool-paths.ts:235-242 | callers enter in the order of their calls, however the work of others ends |
| PathLock.TableIsTight | packages/core/src/agent-runtime/coding-tool-paths.ts:235-247 | the table has an entry exactly while somebody holds or waits |
| PathLock.CallerGetsIn | packages/core/src/agent-runtime/coding-tool-paths.ts:240-246 | in every run a caller whose predecessors are all through gets in once the promises of its chain settle |
| PathLock.PathLocks.Request | packages/core/src/agent-runtime/coding-tool-paths.ts:235-242 | a call up to its first `await` |
| PathLock.PathLocks.Release | packages/core/src/agent-runtime/coding-tool-paths.ts:245-248 | the `finally` |
| AdmissionLanes.LanesAreQueues | packages/core/src/agent-runtime/admission-lanes.ts:50-76 | unless a run is reserved while it is the one run of its key, a lane is the queue of its live runs in scheduling order, at most two, stored exactly while not empty |
| AdmissionLanes.QueuesExactly | packages/core/src/agent-runtime/admission-lanes.ts:50-76 | and only then: otherwise settling that run next leaves the lane wrong |
| AdmissionLanes.ReserveCoalesces | packages/core/src/agent-runtime/admission-lanes.ts:51-64 | a third caller gets the successor, which is not the head, and nothing is scheduled |
| AdmissionLanes.RepeatedRunSettlesOnce | packages/core/src/agent-runtime/admission-lanes.ts:66-76 | the shortest such run: settled once, it stays behind as its own successor |
| AdmissionLanes.RuntimeAdmissionLanes.ReserveRun | packages/core/src/agent-runtime/admission-lanes.ts:51-64 | `reserve` on the lanes |
| AdmissionLanes.RuntimeAdmissionLanes.SettleRun | packages/core/src/agent-runtime/admission-lanes.ts:66-76 | `settle` on the lanes |
| Utf8Align.Utf8AlignedEnd | packages/core/src/agent-runtime/coding-tool-utf8.ts:35-47 | the loop looks back for the byte that leads the cut sequence |
| Utf8Align.Utf8AlignedStart | packages/core/src/agent-runtime/coding-tool-utf8.ts:49-54 | the loop skips continuation bytes |
| Utf8Align.EndIsBoundary | packages/core/src/agent-runtime/coding-tool-utf8.ts:27-47 | any cut of any prefix of a UTF-8 text is moved onto a boundary between characters |
| Utf8Align.StartIsBoundary | packages/core/src/agent-runtime/coding-tool-utf8.ts:49-54 | and so is the start of a tail of such a prefix, unless nothing is left of it |
| ShellOutput.ShellCapture.Retain | packages/core/src/agent-runtime/coding-shell-process.ts:90-106 | what is kept is exactly the stream up to the limits, channel by channel; the limit error is raised exactly by chunks with a byte beyond the limit |
| ShellOutput.KeptIsPrefix | packages/core/src/agent-runtime/coding-shell-process.ts:90-106 | what is kept of a channel is a prefix of what was written on it |
| ShellOutput.CaptureIsPrefix | packages/core/src/agent-runtime/coding-shell-process.ts:78-106 | so in every state of a capture, for the result and for the artifact |
| ShellOutput.PreviewAccounts | packages/core/src/agent-runtime/coding-shell-process.ts:10-31 | head, tail and omitted bytes are the length of the data; the head may overrun the budget by three bytes |
| ShellOutput.PlainPreview | packages/core/src/agent-runtime/coding-shell-process.ts:10-31 | of single-byte characters exactly the budget is shown, the odd byte in front |
| Utf8Align.EndIsStart | packages/core/src/agent-runtime/coding-tool-utf8.ts:27-54 | in a prefix of a UTF-8 text the backward and the forward alignment of a cut agree, both at the end of the character it falls into, unless the prefix ends inside that character and the backward one stops in front of it |
| ShellOutput.PreviewFitsBytes | packages/core/src/agent-runtime/coding-shell-process.ts:10-31 | for any bytes, valid or not: head and tail keep to the budget if and only if the head gains no more by its alignment than the tail loses |
| ShellOutput.PreviewFits | packages/core/src/agent-runtime/coding-shell-process.ts:10-31 | for a prefix of a UTF-8 text, wherever it was cut: if and only if the head stops short of its half or no more continuation bytes follow the cut of the head than the cut of the tail; in a whole text it never stops short |
| ShellOutput.HeadOverruns | packages/core/src/agent-runtime/coding-shell-process.ts:10-31 | they do not always: one byte asked for, two shown |
| ShellOutput.PreviewSplitsNothing | packages/core/src/agent-runtime/coding-shell-process.ts:15-31 | for a prefix of a UTF-8 text a head ends and a tail begins between characters; in a whole text nothing is split |
| ShellOutput.CutTailIsSplit | packages/core/src/agent-runtime/coding-shell-process.ts:15-31 | the tail of a prefix that was cut inside a character ends inside it |
| ShellOutput.RetainedSplitsNothing | packages/core/src/agent-runtime/coding-shell-process.ts:33-45 | nor does the retained prefix, which leaves out at most three bytes |
| ShellOutput.ArtifactIsAccounted | packages/core/src/agent-runtime/coding-shell-process.ts:171-213 | heads, tails and omissions of both channels are the kept artifact bytes, and the artifact with its headers keeps to its limit |
| ChildBudget.GrantIsMeet | packages/core/src/agent-runtime/children-spawn.ts:17-40 | the grant allows exactly what both the request and the remainder allow |
| ChildBudget.ChildRow.BeginStep | packages/core/src/agent-runtime/children-usage.ts:12-47 | up to its first `await`: a step that cannot be measured against a limit is refused; the verdict and the usage to write come from the row as read |
| ChildBudget.ChildRow.EndStep | packages/core/src/agent-runtime/children-usage.ts:74-79 | the transaction writes that usage over whatever the row holds by then |
| ChildBudget.ChildRow.RecordStepUsage | packages/core/src/agent-runtime/children-usage.ts:8-91 | a call that no other overlaps: stored usage is the sum of all steps, and the verdict is that of the sum |
| ChildBudget.StopIsFinal | packages/core/src/agent-runtime/children-usage.ts:43-47 | a stop is never taken back by later steps |
| ChildBudget.FirstStopOverrun | packages/core/src/agent-runtime/children-usage.ts:35-47 | at the first stop the overrun is at most the last step, in every dimension |
| ChildBudget.OverrunIsLeast | packages/core/src/agent-runtime/children-usage.ts:35-42 | the overrun is the least raise of a limit that the usage keeps to |
| ChildBudget.StepCounts | packages/core/src/agent-runtime/children-usage.ts:29-33 | a step counts with what is measured of it, unknown tokens or cost for nothing |
| ChildBudget.StopsAtTheLimit | packages/core/src/agent-runtime/children-usage.ts:35-47 | a child stops exactly when a dimension has reached its limit, and overruns nothing exactly while within its budget |
| ChildBudget.SumIsExact | packages/core/src/agent-runtime/children-usage.ts:15-89 | over every interleaving of calls: what is stored is the sum of the steps written, after each action, if and only if no call writes over a step that used something and was written since it read |
| ChildBudget.WriteIsExact | packages/core/src/agent-runtime/children-usage.ts:74-79 | for one write: exact if and only if nothing was used since its call has read |
| ChildBudget.OverlapLosesAStep | packages/core/src/agent-runtime/children-usage.ts:15-89 | overlapping calls lose a step and can take back a stop |

## Left out

- What a replay checks of a baseline, and how it finds the messages it retains: the retained messages are given.
- Schemas: whether a payload parses and has the modelled fields and no other is a flag of its event; which references a pure rewriting records on the way.
- Full replay equality of a branch with its source: the store reducer is not part of this model.
- Admission limits, abort signals and the application lifecycle around both harnesses.
- The store contract of both harnesses is assumed: a created operation is new and pending, the next ready delivery is one not dispatched, equal event keys are not enqueued twice.
- Payload encoding, the serialization retry loop and the injected failure of the Prisma adapter; `head.compareAndSwap`, receipts and seeds, which are one-row lookups.
- The JSON text of a recovery cursor: a cursor is the pair it encodes, and parsing fails on an empty part.
- Regrouping recovered runs into causal order.
- Listeners of the browser controller are called but do not call back: a listener that closes the controller while a buffer is being applied is not modelled. The detach call of `close` happens after its state changes.
- The reducers of the control view: a view is the sequence of events and snapshots folded into it, and whether it needs a refresh is any function of that.
- `refreshed`, which ignores an older snapshot and keeps transient progress: part of that folding.
- Lone surrogates, on which `encodeURIComponent` throws and which UTF-8 replaces.
- Slices, their headers and the map of parts; front matter.
- A proof whose `run` throws before returning a promise; verdicts of platforms and capabilities.
- An append that fails is taken to have written nothing; a child that takes an answer and then fails to say so is not counted as answered.
- `waitForAcceptances`, a loop whose exit condition is its promise; completions of admissions.
- Path containment, symbolic links and the chain of path authorizations.
- Rounding of fractional cost: sums are exact.
- The stop policy call and the events recorded with a step's usage.
- BrowserConversation.ConversationController.OnDelivery: that it keeps the invariant is stated by the lemmas about the step it equals, like the other methods of the class.
- DocSplitter.SplitToFit: that an error means a line too long is stated one way; trimming at section ends can make a line fit that was too long.
