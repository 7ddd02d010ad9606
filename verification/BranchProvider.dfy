// The provider journal: messages stored under their content digest, and requests that name
// the digests of the messages they sent. A branch renames the call identities inside the
// messages, so every digest changes and every link has to follow (branch-provider.ts).
module BranchProvider {
  import opened Prelude
  import opened BranchRenaming
  import opened BranchJson

  datatype ContentItem = ContentItem(body: string, options: Option<Json>, file: Option<Json>,
                                     providerReference: Option<Json>, fileId: Option<Json>)

  datatype ToolOutput =
    | PlainOutput(body: string, options: Option<Json>)
    | JsonOutput(value: Json, options: Option<Json>)
    | ErrorJsonOutput(value: Json, options: Option<Json>)
    | ContentOutput(items: seq<ContentItem>, options: Option<Json>)

  /** `PlainContent` is text, reasoning, custom, file, reasoning file and image alike: nothing in
      them is renamed, and `file` is the data or image field that has to be checked. */
  datatype Content =
    | PlainContent(shape: string, body: string, options: Option<Json>, file: Option<Json>)
    | CallContent(toolCallId: string, toolName: string, input: Json, facts: string, options: Option<Json>)
    | ResultContent(toolCallId: string, toolName: string, output: ToolOutput, options: Option<Json>)
    | RequestContent(approvalId: string, toolCallId: string, reason: Option<string>, facts: string)
    | ResponseContent(approvalId: string, facts: string)

  datatype Body = TextBody(text: string) | PartsBody(content: seq<Content>)

  datatype ProviderMessage = ProviderMessage(role: string, body: Body, options: Option<Json>)

  datatype Record =
    | MessageRecord(sha256: string, message: ProviderMessage)
    | RequestRecord(runId: string, instructionsSha256: string, messageShas: seq<string>, bodySha256: string, facts: string)
    | ResponseRecord(runId: string, facts: string)

  /** The two digests the journal uses, as arbitrary functions of what they are taken over. */
  datatype Hashes = Hashes(message: ProviderMessage -> RecordId, request: (string, seq<string>) -> RecordId)

  // ---- one message ----------------------------------------------------------------------

  /** `checkFileData` */
  predicate FileAccepted(file: Option<Json>) {
    file.Some? && file.value.Obj? ==>
      var fields := file.value.fields;
      if "type" in fields && fields["type"] == Str("reference") && "reference" in fields then
        Opaque(fields["reference"])
      else
        "type" in fields || ("binary" in fields && fields["binary"] == Bool(true)) || Opaque(file.value)
  }

  predicate ItemAccepted(item: ContentItem) {
    && OpaqueIfAny(item.options)
    && FileAccepted(item.file)
    && OpaqueIfAny(item.providerReference)
    && (item.fileId.Some? && !item.fileId.value.Str? ==> Opaque(item.fileId.value))
  }

  function BranchOutput(ids: Renaming, toolName: string, output: ToolOutput): Result<ToolOutput, Reason> {
    if !OpaqueIfAny(output.options) then Failure(OpaquePayload) else
    match output
    case JsonOutput(value, options) =>
      var payload :- BranchToolJson(ids, toolName, value, true);
      Success(JsonOutput(payload, options))
    case ErrorJsonOutput(value, _) => if Opaque(value) then Success(output) else Failure(OpaquePayload)
    case ContentOutput(items, _) =>
      if forall item | item in items :: ItemAccepted(item) then Success(output) else Failure(OpaquePayload)
    case PlainOutput(_, _) => Success(output)
  }

  function BranchContent(ids: Renaming, content: Content): Result<Content, Reason> {
    match content
    case PlainContent(_, _, options, file) =>
      if OpaqueIfAny(options) && FileAccepted(file) then Success(content) else Failure(OpaquePayload)
    case CallContent(callId, toolName, input, facts, options) =>
      if !OpaqueIfAny(options) then Failure(OpaquePayload) else
      var call :- ids.Reference(CallKind, callId);
      var payload :- BranchToolJson(ids, toolName, input, false);
      Success(CallContent(call, toolName, payload, facts, options))
    case ResultContent(callId, toolName, output, options) =>
      if !OpaqueIfAny(options) then Failure(OpaquePayload) else
      var call :- ids.Reference(CallKind, callId);
      var after :- BranchOutput(ids, toolName, output);
      Success(ResultContent(call, toolName, after, options))
    case RequestContent(approvalId, callId, reason, _) =>
      var approval :- ids.Reference(ApprovalKind, approvalId);
      var call :- ids.Reference(CallKind, callId);
      Success(RequestContent(approval, call, reason, ""))
    case ResponseContent(approvalId, facts) =>
      var approval :- ids.Reference(ApprovalKind, approvalId);
      Success(ResponseContent(approval, facts))
  }

  function Contents(ids: Renaming): Content -> Result<Content, Reason> {
    content => BranchContent(ids, content)
  }

  function BranchProviderMessage(ids: Renaming, message: ProviderMessage): Result<ProviderMessage, Reason> {
    if !OpaqueIfAny(message.options) then Failure(OpaquePayload) else
    match message.body
    case TextBody(_) => Success(message)
    case PartsBody(content) =>
      var after :- Traverse(Contents(ids), content);
      Success(message.(body := PartsBody(after)))
  }

  ghost function ContentIds(content: Content): set<Identity> {
    match content
    case PlainContent(_, _, _, _) => {}
    case CallContent(callId, toolName, input, _, _) => {(CallKind, callId)} + ToolJsonIds(toolName, input, false)
    case ResultContent(callId, toolName, output, _) =>
      {(CallKind, callId)} + (if output.JsonOutput? then ToolJsonIds(toolName, output.value, true) else {})
    case RequestContent(approvalId, callId, _, _) => {(ApprovalKind, approvalId), (CallKind, callId)}
    case ResponseContent(approvalId, _) => {(ApprovalKind, approvalId)}
  }

  predicate OutputAccepted(toolName: string, output: ToolOutput) {
    && OpaqueIfAny(output.options)
    && match output
       case JsonOutput(value, _) => ToolJsonAccepted(toolName, value, true)
       case ErrorJsonOutput(value, _) => Opaque(value)
       case ContentOutput(items, _) => forall item | item in items :: ItemAccepted(item)
       case PlainOutput(_, _) => true
  }

  predicate ContentAccepted(content: Content) {
    match content
    case PlainContent(_, _, options, file) => OpaqueIfAny(options) && FileAccepted(file)
    case CallContent(_, toolName, input, _, options) => OpaqueIfAny(options) && ToolJsonAccepted(toolName, input, false)
    case ResultContent(_, toolName, output, options) => OpaqueIfAny(options) && OutputAccepted(toolName, output)
    case _ => true
  }

  ghost function ProviderMessageIds(message: ProviderMessage): set<Identity> {
    if message.body.PartsBody? then AllIds(ContentIds, message.body.content) else {}
  }

  predicate ProviderMessageAccepted(message: ProviderMessage) {
    && OpaqueIfAny(message.options)
    && (message.body.PartsBody? ==> forall content | content in message.body.content :: ContentAccepted(content))
  }

  lemma ContentResolves(ids: Renaming, content: Content)
    ensures BranchContent(ids, content).Success? <==> ContentAccepted(content) && ContentIds(content) <= ids.defined
    ensures BranchContent(ids, content).Success? ==>
              var after := BranchContent(ids, content).value;
              ContentAccepted(after) && ContentIds(after) == ids.Images(ContentIds(content))
  {
    match content
    case CallContent(_, toolName, input, _, _) => ToolJsonResolves(ids, toolName, input, false);
    case ResultContent(_, toolName, output, _) =>
      if output.JsonOutput? { ToolJsonResolves(ids, toolName, output.value, true); }
    case _ =>
  }

  lemma ContentCompose(outer: Renaming, inner: Renaming, content: Content)
    requires BranchContent(inner, content).Success?
    ensures Agree(BranchContent(outer, BranchContent(inner, content).value),
                  BranchContent(Compose(outer, inner), content))
  {
    match content
    case CallContent(_, toolName, input, _, _) => ToolJsonCompose(outer, inner, toolName, input, false);
    case ResultContent(_, toolName, output, _) =>
      if output.JsonOutput? { ToolJsonCompose(outer, inner, toolName, output.value, true); }
    case _ =>
  }

  lemma ProviderMessageResolves(ids: Renaming, message: ProviderMessage)
    ensures BranchProviderMessage(ids, message).Success? <==>
              ProviderMessageAccepted(message) && ProviderMessageIds(message) <= ids.defined
    ensures BranchProviderMessage(ids, message).Success? ==>
              var after := BranchProviderMessage(ids, message).value;
              ProviderMessageAccepted(after) && ProviderMessageIds(after) == ids.Images(ProviderMessageIds(message))
  {
    if message.body.PartsBody? {
      forall content { ContentResolves(ids, content); }
      TraverseResolves(ids, Contents(ids), ContentIds, ContentAccepted, ContentAccepted, message.body.content);
    }
  }

  lemma ProviderMessageCompose(outer: Renaming, inner: Renaming, message: ProviderMessage)
    requires BranchProviderMessage(inner, message).Success?
    ensures Agree(BranchProviderMessage(outer, BranchProviderMessage(inner, message).value),
                  BranchProviderMessage(Compose(outer, inner), message))
  {
    if message.body.PartsBody? {
      forall content | BranchContent(inner, content).Success?
        ensures Agree(Contents(outer)(BranchContent(inner, content).value), Contents(Compose(outer, inner))(content))
      {
        ContentCompose(outer, inner, content);
      }
      TraverseCompose(Contents(inner), Contents(outer), Contents(Compose(outer, inner)), message.body.content);
    }
  }

  // ---- one record, given the digests rewritten so far ---------------------------------------

  function Relink(digests: map<string, string>): string -> Result<string, Reason> {
    sha => if sha in digests then Success(digests[sha]) else Failure(MissingMessage)
  }

  /** `BranchProvider.rekey`, with the new content of its `digests` map. */
  function Rekey(hashes: Hashes, ids: Renaming, digests: map<string, string>, record: Record)
    : Result<(Record, map<string, string>), Reason>
  {
    match record
    case MessageRecord(sha256, message) =>
      if hashes.message(message) != sha256 then Failure(InconsistentDigest) else
      var after :- BranchProviderMessage(ids, message);
      Success((MessageRecord(hashes.message(after), after), digests[sha256 := hashes.message(after)]))
    case RequestRecord(runId, instructions, shas, body, facts) =>
      if hashes.request(instructions, shas) != body then Failure(InconsistentDigest) else
      var targets :- Traverse(Relink(digests), shas);
      var run :- ids.Reference(RunKind, runId);
      Success((RequestRecord(run, instructions, targets, hashes.request(instructions, targets), facts), digests))
    case ResponseRecord(runId, facts) =>
      var run :- ids.Reference(RunKind, runId);
      Success((ResponseRecord(run, facts), digests))
  }

  ghost function RecordIds(record: Record): set<Identity> {
    match record
    case MessageRecord(_, message) => ProviderMessageIds(message)
    case RequestRecord(runId, _, _, _, _) => {(RunKind, runId)}
    case ResponseRecord(runId, _) => {(RunKind, runId)}
  }

  predicate RecordAccepted(record: Record) {
    record.MessageRecord? ==> ProviderMessageAccepted(record.message)
  }

  // ---- the whole journal, in order ------------------------------------------------------------

  function RekeyJournal(hashes: Hashes, ids: Renaming, records: seq<Record>)
    : Result<(seq<Record>, map<string, string>), Reason>
  {
    if records == [] then Success(([], map[])) else
      var before :- RekeyJournal(hashes, ids, records[..|records| - 1]);
      var last :- Rekey(hashes, ids, before.1, records[|records| - 1]);
      Success((before.0 + [last.0], last.1))
  }

  /** The message a digest names at one point of a journal: the latest one stored under it. */
  ghost function Named(records: seq<Record>, sha: string): Option<ProviderMessage> {
    if records == [] then None else
      var last := records[|records| - 1];
      if last.MessageRecord? && last.sha256 == sha then Some(last.message)
      else Named(records[..|records| - 1], sha)
  }

  /** Digests are those of the contents, and requests only name messages stored before them. */
  ghost predicate Consistent(hashes: Hashes, records: seq<Record>) {
    forall i | 0 <= i < |records| :: RecordConsistent(hashes, records, i)
  }

  ghost predicate RecordConsistent(hashes: Hashes, records: seq<Record>, i: nat)
    requires i < |records|
  {
    match records[i]
    case MessageRecord(sha256, message) => sha256 == hashes.message(message)
    case RequestRecord(_, instructions, shas, body, _) =>
      body == hashes.request(instructions, shas) && forall sha | sha in shas :: Named(records[..i], sha).Some?
    case ResponseRecord(_, _) => true
  }

  lemma ConsistentPrefix(hashes: Hashes, records: seq<Record>)
    requires records != []
    ensures Consistent(hashes, records) <==>
              Consistent(hashes, records[..|records| - 1]) && RecordConsistent(hashes, records, |records| - 1)
  {
    var before := records[..|records| - 1];
    forall i | 0 <= i < |before| ensures RecordConsistent(hashes, records, i) == RecordConsistent(hashes, before, i) {
      assert records[..i] == before[..i];
    }
  }

  /** What the `digests` map holds after a journal: for each digest, that of the renamed message
      it names, and that message is stored under it in the rewritten journal. */
  ghost predicate Linked(hashes: Hashes, ids: Renaming, records: seq<Record>, after: seq<Record>,
                         digests: map<string, string>)
  {
    && (forall sha :: sha in digests <==> Named(records, sha).Some?)
    && (forall sha | sha in digests ::
          var renamed := BranchProviderMessage(ids, Named(records, sha).value);
          renamed.Success? && digests[sha] == hashes.message(renamed.value) && Named(after, digests[sha]).Some?)
  }

  lemma {:induction false} JournalLinks(hashes: Hashes, ids: Renaming, records: seq<Record>)
    requires RekeyJournal(hashes, ids, records).Success?
    ensures var (after, digests) := RekeyJournal(hashes, ids, records).value;
            |after| == |records| && Linked(hashes, ids, records, after, digests) && Consistent(hashes, after)
  {
    if records != [] {
      var before, last := records[..|records| - 1], records[|records| - 1];
      JournalLinks(hashes, ids, before);
      var (start, digests) := RekeyJournal(hashes, ids, before).value;
      RecordLinks(hashes, ids, before, last, start, digests);
      RecordStaysConsistent(hashes, ids, before, last, start, digests);
      assert before + [last] == records;
    }
  }

  /** One more record, and what the journal says of digests is still what the map says. */
  lemma RecordLinks(hashes: Hashes, ids: Renaming, before: seq<Record>, last: Record,
                                       start: seq<Record>, digests: map<string, string>)
    requires Linked(hashes, ids, before, start, digests) && Rekey(hashes, ids, digests, last).Success?
    ensures var (last', digests') := Rekey(hashes, ids, digests, last).value;
            Linked(hashes, ids, before + [last], start + [last'], digests')
  {
    var last' := Rekey(hashes, ids, digests, last).value.0;
    var records, after := before + [last], start + [last'];
    assert records[..|records| - 1] == before && after[..|after| - 1] == start;
  }

  lemma RecordStaysConsistent(hashes: Hashes, ids: Renaming, before: seq<Record>, last: Record,
                                                 start: seq<Record>, digests: map<string, string>)
    requires Linked(hashes, ids, before, start, digests) && Consistent(hashes, start)
    requires Rekey(hashes, ids, digests, last).Success?
    ensures Consistent(hashes, start + [Rekey(hashes, ids, digests, last).value.0])
  {
    var last' := Rekey(hashes, ids, digests, last).value.0;
    var after := start + [last'];
    assert after[..|after| - 1] == start;
    ConsistentPrefix(hashes, after);
    if last.RequestRecord? {
      var targets := last'.messageShas;
      forall sha | sha in targets ensures Named(start, sha).Some? {
        var k :| 0 <= k < |targets| && targets[k] == sha;
        assert Relink(digests)(last.messageShas[k]).Success?;
      }
    }
  }

  /** A journal is rewritten exactly when it is consistent, its opaque payloads hold no runtime
      key and its identities were collected; and then it is consistent again. */
  lemma {:induction false} JournalResolves(hashes: Hashes, ids: Renaming, records: seq<Record>)
    ensures RekeyJournal(hashes, ids, records).Success? <==>
              Consistent(hashes, records)
              && (forall record | record in records :: RecordAccepted(record))
              && AllIds(RecordIds, records) <= ids.defined
    ensures RekeyJournal(hashes, ids, records).Success? ==>
              var after := RekeyJournal(hashes, ids, records).value.0;
              Consistent(hashes, after)
              && (forall record | record in after :: RecordAccepted(record))
              && AllIds(RecordIds, after) == ids.Images(AllIds(RecordIds, records))
  {
    if records != [] {
      var before, last := records[..|records| - 1], records[|records| - 1];
      JournalResolves(hashes, ids, before);
      ConsistentPrefix(hashes, records);
      AllIdsSnoc(before, last);
      assert records == before + [last];
      assert forall record :: record in records <==> record in before || record == last;
      if RekeyJournal(hashes, ids, before).Success? {
        JournalLinks(hashes, ids, before);
        var (start, digests) := RekeyJournal(hashes, ids, before).value;
        RecordResolves(hashes, ids, before, start, digests, last);
        if RekeyJournal(hashes, ids, records).Success? {
          JournalLinks(hashes, ids, records);
          var after := RekeyJournal(hashes, ids, records).value.0;
          AllIdsSnoc(start, after[|start|]);
          assert forall record :: record in after <==> record in start || record == after[|start|];
          ids.ImagesUnion(AllIds(RecordIds, before), RecordIds(last));
        }
      }
    }
  }

  lemma AllIdsSnoc(records: seq<Record>, last: Record)
    ensures AllIds(RecordIds, records + [last]) == AllIds(RecordIds, records) + RecordIds(last)
  {
    assert forall record :: record in records + [last] <==> record in records || record == last;
  }

  lemma RecordResolves(hashes: Hashes, ids: Renaming, before: seq<Record>, start: seq<Record>,
                       digests: map<string, string>, record: Record)
    requires Linked(hashes, ids, before, start, digests)
    ensures Rekey(hashes, ids, digests, record).Success? <==>
              RecordConsistent(hashes, before + [record], |before|) && RecordAccepted(record)
              && RecordIds(record) <= ids.defined
    ensures Rekey(hashes, ids, digests, record).Success? ==>
              var after := Rekey(hashes, ids, digests, record).value.0;
              RecordAccepted(after) && RecordIds(after) == ids.Images(RecordIds(record))
  {
    assert (before + [record])[..|before|] == before;
    match record
    case MessageRecord(_, message) => ProviderMessageResolves(ids, message);
    case RequestRecord(_, _, shas, _, _) =>
      var targets := Traverse(Relink(digests), shas);
      assert targets.Success? <==> forall sha | sha in shas :: Named(before, sha).Some? by {
        if targets.Success? {
          forall sha | sha in shas ensures Named(before, sha).Some? {
            var k :| 0 <= k < |shas| && shas[k] == sha;
            assert Relink(digests)(shas[k]).Success?;
          }
        } else {
          var k :| 0 <= k < |shas| && !Relink(digests)(shas[k]).Success?;
          assert shas[k] in shas;
        }
      }
    case _ =>
  }

  /** Branch closure: the branch of a journal can itself be branched, as soon as the identities
      the first branch minted are collected for the second. */
  lemma BranchClosure(hashes: Hashes, inner: Renaming, outer: Renaming, records: seq<Record>)
    requires RekeyJournal(hashes, inner, records).Success?
    requires inner.Images(AllIds(RecordIds, records)) <= outer.defined
    ensures RekeyJournal(hashes, outer, RekeyJournal(hashes, inner, records).value.0).Success?
  {
    JournalResolves(hashes, inner, records);
    JournalResolves(hashes, outer, RekeyJournal(hashes, inner, records).value.0);
  }

  /** No identity of a journal is left in the rewritten one. */
  lemma NoSourceIdentityLeft(hashes: Hashes, ids: Renaming, records: seq<Record>)
    requires RekeyJournal(hashes, ids, records).Success? && MintsAnew(ids, AllIds(RecordIds, records))
    ensures AllIds(RecordIds, RekeyJournal(hashes, ids, records).value.0) !! AllIds(RecordIds, records)
  {
    JournalResolves(hashes, ids, records);
  }

  // ---- more identities collected ---------------------------------------------------------------

  lemma ContentExtends(more: Renaming, ids: Renaming, content: Content)
    requires Extends(more, ids) && BranchContent(ids, content).Success?
    ensures BranchContent(more, content) == BranchContent(ids, content)
  {
  }

  lemma ProviderMessageExtends(more: Renaming, ids: Renaming, message: ProviderMessage)
    requires Extends(more, ids) && BranchProviderMessage(ids, message).Success?
    ensures BranchProviderMessage(more, message) == BranchProviderMessage(ids, message)
  {
    if message.body.PartsBody? {
      var content := message.body.content;
      forall i | 0 <= i < |content| ensures Contents(more)(content[i]) == Contents(ids)(content[i]) {
        assert Contents(ids)(content[i]).Success?;
        ContentExtends(more, ids, content[i]);
      }
      assert Traverse(Contents(more), content).value == Traverse(Contents(ids), content).value;
    }
  }

  lemma RecordExtends(hashes: Hashes, more: Renaming, ids: Renaming, digests: map<string, string>, record: Record)
    requires Extends(more, ids) && Rekey(hashes, ids, digests, record).Success?
    ensures Rekey(hashes, more, digests, record) == Rekey(hashes, ids, digests, record)
  {
    if record.MessageRecord? {
      ProviderMessageExtends(more, ids, record.message);
    }
  }

  /** A journal that can be rewritten is rewritten the same when more has been collected. */
  lemma {:induction false} JournalExtends(hashes: Hashes, more: Renaming, ids: Renaming, records: seq<Record>)
    requires Extends(more, ids) && RekeyJournal(hashes, ids, records).Success?
    ensures RekeyJournal(hashes, more, records) == RekeyJournal(hashes, ids, records)
  {
    if records != [] {
      var before := records[..|records| - 1];
      JournalExtends(hashes, more, ids, before);
      RecordExtends(hashes, more, ids, RekeyJournal(hashes, ids, before).value.1, records[|records| - 1]);
    }
  }

  // ---- two branches are one ---------------------------------------------------------------------

  /** The digest of a renamed message, where it can be renamed. */
  ghost function Renamed(hashes: Hashes, ids: Renaming, message: ProviderMessage): Option<string> {
    var after := BranchProviderMessage(ids, message);
    if after.Success? then Some(hashes.message(after.value)) else None
  }

  /** Between two rewritings a link holds the digest of the message it means. The second rewriting
      follows it to the latest message under that digest: both must be given one digest again. */
  ghost predicate LinkSurvives(hashes: Hashes, outer: Renaming, inner: Renaming, before: seq<Record>, start: seq<Record>,
                               sha: string)
  {
    && Named(before, sha).Some?
    && var meant := BranchProviderMessage(inner, Named(before, sha).value);
       && meant.Success?
       && var found := Named(start, hashes.message(meant.value));
          found.Some? && Renamed(hashes, outer, found.value) == Renamed(hashes, outer, meant.value)
  }

  ghost predicate LinksSurviveAt(hashes: Hashes, outer: Renaming, inner: Renaming, records: seq<Record>,
                                 once: seq<Record>, i: nat)
    requires i < |records| == |once|
  {
    records[i].RequestRecord? ==>
      forall sha | sha in records[i].messageShas :: LinkSurvives(hashes, outer, inner, records[..i], once[..i], sha)
  }

  ghost predicate LinksSurvive(hashes: Hashes, outer: Renaming, inner: Renaming, records: seq<Record>, once: seq<Record>) {
    |records| == |once| && forall i | 0 <= i < |records| :: LinksSurviveAt(hashes, outer, inner, records, once, i)
  }

  /** What the rewriting of a journal does at one place. */
  lemma {:induction false} RecordAt(hashes: Hashes, ids: Renaming, records: seq<Record>, i: nat)
    requires i < |records| && RekeyJournal(hashes, ids, records).Success?
    ensures var after := RekeyJournal(hashes, ids, records).value.0;
            var before := RekeyJournal(hashes, ids, records[..i]);
            && |after| == |records| && before.Success? && before.value.0 == after[..i]
            && Rekey(hashes, ids, before.value.1, records[i]).Success?
            && Rekey(hashes, ids, before.value.1, records[i]).value.0 == after[i]
  {
    JournalLinks(hashes, ids, records);
    var init := records[..|records| - 1];
    var start := RekeyJournal(hashes, ids, init).value.0;
    JournalLinks(hashes, ids, init);
    assert RekeyJournal(hashes, ids, records).value.0[..|init|] == start;
    if i < |init| {
      RecordAt(hashes, ids, init, i);
      assert init[..i] == records[..i] && RekeyJournal(hashes, ids, records).value.0[..i] == start[..i];
    }
  }

  /** One record: only links can tell two rewritings from one by the composition. */
  lemma RecordCompose(hashes: Hashes, outer: Renaming, inner: Renaming,
                      first: map<string, string>, second: map<string, string>, whole: map<string, string>, record: Record)
    requires Rekey(hashes, inner, first, record).Success?
    requires Rekey(hashes, outer, second, Rekey(hashes, inner, first, record).value.0).Success?
    requires Rekey(hashes, Compose(outer, inner), whole, record).Success?
    ensures var once := Rekey(hashes, inner, first, record).value.0;
            var twice := Rekey(hashes, outer, second, once).value.0;
            var direct := Rekey(hashes, Compose(outer, inner), whole, record).value.0;
            twice == direct <==> record.RequestRecord? ==> RelinksAlike(first, second, whole, record.messageShas)
  {
    match record
    case MessageRecord(_, message) => ProviderMessageCompose(outer, inner, message);
    case RequestRecord(_, _, shas, _, _) => RelinkCompose(first, second, whole, shas);
    case ResponseRecord(_, _) =>
  }

  predicate RelinksAlike(first: map<string, string>, second: map<string, string>, whole: map<string, string>,
                         shas: seq<string>)
  {
    forall sha | sha in shas ::
      sha in first && first[sha] in second && sha in whole && second[first[sha]] == whole[sha]
  }

  lemma RelinkCompose(first: map<string, string>, second: map<string, string>, whole: map<string, string>, shas: seq<string>)
    requires Traverse(Relink(first), shas).Success? && Traverse(Relink(whole), shas).Success?
    requires Traverse(Relink(second), Traverse(Relink(first), shas).value).Success?
    ensures var twice := Traverse(Relink(second), Traverse(Relink(first), shas).value).value;
            twice == Traverse(Relink(whole), shas).value <==> RelinksAlike(first, second, whole, shas)
  {
    var middle, direct := Traverse(Relink(first), shas).value, Traverse(Relink(whole), shas).value;
    var twice := Traverse(Relink(second), middle).value;
    forall k | 0 <= k < |shas|
      ensures shas[k] in first && first[shas[k]] in second && shas[k] in whole
      ensures middle[k] == first[shas[k]] && twice[k] == second[middle[k]] && direct[k] == whole[shas[k]]
    {
      assert Relink(first)(shas[k]).Success? && Relink(whole)(shas[k]).Success? && Relink(second)(middle[k]).Success?;
    }
    if RelinksAlike(first, second, whole, shas) {
      assert forall k | 0 <= k < |shas| :: shas[k] in shas && twice[k] == direct[k];
    }
  }

  /** What the three digest maps say of one link, in terms of messages. */
  lemma LinkMeaning(hashes: Hashes, outer: Renaming, inner: Renaming, before: seq<Record>, start: seq<Record>, end: seq<Record>,
                    direct: seq<Record>, first: map<string, string>, second: map<string, string>, whole: map<string, string>,
                    sha: string)
    requires Linked(hashes, inner, before, start, first) && Linked(hashes, outer, start, end, second)
    requires Linked(hashes, Compose(outer, inner), before, direct, whole)
    requires sha in first && first[sha] in second && sha in whole
    ensures second[first[sha]] == whole[sha] <==> LinkSurvives(hashes, outer, inner, before, start, sha)
  {
    ProviderMessageCompose(outer, inner, Named(before, sha).value);
  }

  lemma RecordsCompose(hashes: Hashes, outer: Renaming, inner: Renaming, records: seq<Record>, i: nat)
    requires RekeyJournal(hashes, inner, records).Success? && i < |records|
    requires RekeyJournal(hashes, outer, RekeyJournal(hashes, inner, records).value.0).Success?
    requires RekeyJournal(hashes, Compose(outer, inner), records).Success?
    ensures var once := RekeyJournal(hashes, inner, records).value.0;
            var twice := RekeyJournal(hashes, outer, once).value.0;
            var direct := RekeyJournal(hashes, Compose(outer, inner), records).value.0;
            |once| == |twice| == |direct| == |records|
            && (twice[i] == direct[i] <==> LinksSurviveAt(hashes, outer, inner, records, once, i))
  {
    var once := RekeyJournal(hashes, inner, records).value.0;
    RecordAt(hashes, inner, records, i);
    RecordAt(hashes, outer, once, i);
    RecordAt(hashes, Compose(outer, inner), records, i);
    var (start, first) := RekeyJournal(hashes, inner, records[..i]).value;
    var (end, second) := RekeyJournal(hashes, outer, once[..i]).value;
    var (direct, whole) := RekeyJournal(hashes, Compose(outer, inner), records[..i]).value;
    RecordCompose(hashes, outer, inner, first, second, whole, records[i]);
    if records[i].RequestRecord? {
      JournalLinks(hashes, inner, records[..i]);
      JournalLinks(hashes, outer, once[..i]);
      JournalLinks(hashes, Compose(outer, inner), records[..i]);
      assert once[..i] == start;
      LinksMean(hashes, outer, inner, records[..i], start, end, direct, first, second, whole, records[i].messageShas);
    }
  }

  lemma LinksMean(hashes: Hashes, outer: Renaming, inner: Renaming, before: seq<Record>, start: seq<Record>, end: seq<Record>,
                  direct: seq<Record>, first: map<string, string>, second: map<string, string>, whole: map<string, string>,
                  shas: seq<string>)
    requires Linked(hashes, inner, before, start, first) && Linked(hashes, outer, start, end, second)
    requires Linked(hashes, Compose(outer, inner), before, direct, whole)
    requires Traverse(Relink(first), shas).Success? && Traverse(Relink(whole), shas).Success?
    ensures RelinksAlike(first, second, whole, shas) <==>
              forall sha | sha in shas :: LinkSurvives(hashes, outer, inner, before, start, sha)
  {
    forall sha | sha in shas
      ensures sha in first && first[sha] in second && sha in whole
      ensures second[first[sha]] == whole[sha] <==> LinkSurvives(hashes, outer, inner, before, start, sha)
    {
      var k :| 0 <= k < |shas| && shas[k] == sha;
      assert Relink(first)(shas[k]).Success? && Relink(whole)(shas[k]).Success?;
      LinkMeaning(hashes, outer, inner, before, start, end, direct, first, second, whole, sha);
    }
  }

  /** Rewriting a journal twice succeeds exactly when rewriting it once by the composed renaming does,
      and gives the same exactly when every link survives the digests in between. */
  lemma JournalCompose(hashes: Hashes, outer: Renaming, inner: Renaming, records: seq<Record>)
    requires RekeyJournal(hashes, inner, records).Success?
    ensures var once := RekeyJournal(hashes, inner, records).value.0;
            var twice := RekeyJournal(hashes, outer, once);
            var direct := RekeyJournal(hashes, Compose(outer, inner), records);
            twice.Success? == direct.Success?
            && (twice.Success? ==>
                  (twice.value.0 == direct.value.0 <==> LinksSurvive(hashes, outer, inner, records, once)))
  {
    var once := RekeyJournal(hashes, inner, records).value.0;
    JournalResolves(hashes, inner, records);
    JournalResolves(hashes, outer, once);
    JournalResolves(hashes, Compose(outer, inner), records);
    var ids := AllIds(RecordIds, records);
    assert inner.Images(ids) <= outer.defined <==> ids <= Compose(outer, inner).defined by {
      assert forall id | id in ids :: inner.Image(id) in inner.Images(ids);
    }
    var twice, direct := RekeyJournal(hashes, outer, once), RekeyJournal(hashes, Compose(outer, inner), records);
    if twice.Success? {
      JournalLinks(hashes, inner, records);
      JournalLinks(hashes, outer, once);
      JournalLinks(hashes, Compose(outer, inner), records);
      forall i | 0 <= i < |records|
        ensures twice.value.0[i] == direct.value.0[i] <==> LinksSurviveAt(hashes, outer, inner, records, once, i)
      {
        RecordsCompose(hashes, outer, inner, records, i);
      }
    }
  }

  // ---- digests without collisions ---------------------------------------------------------------

  predicate IsMessage(records: seq<Record>, message: ProviderMessage) {
    exists i :: 0 <= i < |records| && records[i].MessageRecord? && records[i].message == message
  }

  /** No two different messages of a journal share a digest. */
  ghost predicate NoCollisions(hashes: Hashes, records: seq<Record>) {
    forall a, b | IsMessage(records, a) && IsMessage(records, b) && hashes.message(a) == hashes.message(b) :: a == b
  }

  lemma NamedIsMessage(records: seq<Record>, sha: string)
    requires Named(records, sha).Some?
    ensures IsMessage(records, Named(records, sha).value)
  {
    var before, last := records[..|records| - 1], records[|records| - 1];
    if last.MessageRecord? && last.sha256 == sha {
      assert records[|records| - 1].message == Named(records, sha).value;
    } else {
      NamedIsMessage(before, sha);
      var i :| 0 <= i < |before| && before[i].MessageRecord? && before[i].message == Named(before, sha).value;
      assert records[i] == before[i];
    }
  }

  /** The messages of a rewritten journal are the renamed messages, in their places. */
  lemma {:induction false} MessagesRenamed(hashes: Hashes, ids: Renaming, records: seq<Record>)
    requires RekeyJournal(hashes, ids, records).Success?
    ensures var after := RekeyJournal(hashes, ids, records).value.0;
            && |after| == |records|
            && forall i | 0 <= i < |records| && records[i].MessageRecord? ::
                 after[i].MessageRecord? && BranchProviderMessage(ids, records[i].message) == Success(after[i].message)
  {
    if records != [] {
      var before, last := records[..|records| - 1], records[|records| - 1];
      MessagesRenamed(hashes, ids, before);
      var (start, digests) := RekeyJournal(hashes, ids, before).value;
      var after := RekeyJournal(hashes, ids, records).value.0;
      forall i | 0 <= i < |records| && records[i].MessageRecord?
        ensures after[i].MessageRecord? && BranchProviderMessage(ids, records[i].message) == Success(after[i].message)
      {
        if i < |before| {
          assert records[i] == before[i] && after[i] == start[i];
        }
      }
    }
  }

  lemma RenamedIsMessage(hashes: Hashes, ids: Renaming, records: seq<Record>, sha: string)
    requires RekeyJournal(hashes, ids, records).Success? && Named(records, sha).Some?
    ensures var renamed := BranchProviderMessage(ids, Named(records, sha).value);
            renamed.Success? && IsMessage(RekeyJournal(hashes, ids, records).value.0, renamed.value)
  {
    NamedIsMessage(records, sha);
    MessagesRenamed(hashes, ids, records);
    var i :| 0 <= i < |records| && records[i].MessageRecord? && records[i].message == Named(records, sha).value;
    assert RekeyJournal(hashes, ids, records).value.0[i].MessageRecord?;
  }

  lemma NamedIsHashed(hashes: Hashes, records: seq<Record>, sha: string)
    requires Consistent(hashes, records) && Named(records, sha).Some?
    ensures hashes.message(Named(records, sha).value) == sha
  {
    ConsistentPrefix(hashes, records);
    var last := records[|records| - 1];
    if !(last.MessageRecord? && last.sha256 == sha) {
      NamedIsHashed(hashes, records[..|records| - 1], sha);
    }
  }

  lemma NoCollisionsIn(hashes: Hashes, records: seq<Record>, i: nat)
    requires NoCollisions(hashes, records) && i <= |records|
    ensures NoCollisions(hashes, records[..i])
  {
    forall message | IsMessage(records[..i], message) ensures IsMessage(records, message) {
      var j :| 0 <= j < i && records[..i][j].MessageRecord? && records[..i][j].message == message;
      assert records[j] == records[..i][j];
    }
  }

  /** Without collisions a digest leads to the renaming of the very message it led to. */
  lemma LinkKept(hashes: Hashes, ids: Renaming, records: seq<Record>, digests: map<string, string>, sha: string)
    requires RekeyJournal(hashes, ids, records).Success? && digests == RekeyJournal(hashes, ids, records).value.1
    requires NoCollisions(hashes, RekeyJournal(hashes, ids, records).value.0) && sha in digests
    ensures var after := RekeyJournal(hashes, ids, records).value.0;
            && Named(records, sha).Some? && Named(after, digests[sha]).Some?
            && BranchProviderMessage(ids, Named(records, sha).value) == Success(Named(after, digests[sha]).value)
  {
    var after := RekeyJournal(hashes, ids, records).value.0;
    JournalLinks(hashes, ids, records);
    NamedIsHashed(hashes, after, digests[sha]);
    NamedIsMessage(after, digests[sha]);
    RenamedIsMessage(hashes, ids, records, sha);
  }

  /** When no two messages of the journal in between share a digest, every link survives. */
  lemma NoCollisionsSuffice(hashes: Hashes, outer: Renaming, inner: Renaming, records: seq<Record>)
    requires RekeyJournal(hashes, inner, records).Success?
    requires NoCollisions(hashes, RekeyJournal(hashes, inner, records).value.0)
    ensures LinksSurvive(hashes, outer, inner, records, RekeyJournal(hashes, inner, records).value.0)
  {
    var once := RekeyJournal(hashes, inner, records).value.0;
    JournalLinks(hashes, inner, records);
    forall i, sha | 0 <= i < |records| && records[i].RequestRecord? && sha in records[i].messageShas
      ensures LinkSurvives(hashes, outer, inner, records[..i], once[..i], sha)
    {
      RecordAt(hashes, inner, records, i);
      NoCollisionsIn(hashes, once, i);
      var (start, digests) := RekeyJournal(hashes, inner, records[..i]).value;
      var shas := records[i].messageShas;
      var k :| 0 <= k < |shas| && shas[k] == sha;
      assert Relink(digests)(shas[k]).Success?;
      JournalLinks(hashes, inner, records[..i]);
      LinkKept(hashes, inner, records[..i], digests, sha);
    }
  }

  /** And every link of a rewritten request leads to the renaming of the very message the original
      link led to. */
  lemma LinksKeepTheirMeaning(hashes: Hashes, ids: Renaming, records: seq<Record>, i: nat, k: nat)
    requires RekeyJournal(hashes, ids, records).Success?
    requires NoCollisions(hashes, RekeyJournal(hashes, ids, records).value.0)
    requires i < |records| && records[i].RequestRecord? && k < |records[i].messageShas|
    ensures var after := RekeyJournal(hashes, ids, records).value.0;
            |after| == |records| && after[i].RequestRecord? && k < |after[i].messageShas|
            && Named(records[..i], records[i].messageShas[k]).Some?
            && Named(after[..i], after[i].messageShas[k]).Some?
            && BranchProviderMessage(ids, Named(records[..i], records[i].messageShas[k]).value)
                 == Success(Named(after[..i], after[i].messageShas[k]).value)
  {
    RecordAt(hashes, ids, records, i);
    NoCollisionsIn(hashes, RekeyJournal(hashes, ids, records).value.0, i);
    var digests := RekeyJournal(hashes, ids, records[..i]).value.1;
    assert Relink(digests)(records[i].messageShas[k]).Success?;
    LinkKept(hashes, ids, records[..i], digests, records[i].messageShas[k]);
  }

  // ---- the rewriting object -------------------------------------------------------------------------

  /** `BranchProvider`: the digests rewritten so far, filled record by record. */
  class Provider {
    const hashes: Hashes
    const ids: Renaming
    var digests: map<string, string>

    constructor (hashes: Hashes, ids: Renaming)
      ensures this.hashes == hashes && this.ids == ids && digests == map[]
    {
      this.hashes, this.ids, digests := hashes, ids, map[];
    }

    method RekeyRecord(record: Record) returns (result: Result<Record, Reason>)
      modifies this
      ensures var spec := Rekey(hashes, ids, old(digests), record);
              && result.Success? == spec.Success?
              && (spec.Success? ==> result.value == spec.value.0 && digests == spec.value.1)
              && (spec.Failure? ==> result.reason == spec.reason && digests == old(digests))
    {
      match record {
        case MessageRecord(sha256, message) =>
          if hashes.message(message) != sha256 {
            return Failure(InconsistentDigest);
          }
          var after :- BranchProviderMessage(ids, message);
          digests := digests[sha256 := hashes.message(after)];
          return Success(MessageRecord(hashes.message(after), after));
        case RequestRecord(runId, instructions, shas, body, facts) =>
          if hashes.request(instructions, shas) != body {
            return Failure(InconsistentDigest);
          }
          var targets :- Traverse(Relink(digests), shas);
          var run :- ids.Reference(RunKind, runId);
          return Success(RequestRecord(run, instructions, targets, hashes.request(instructions, targets), facts));
        case ResponseRecord(runId, facts) =>
          var run :- ids.Reference(RunKind, runId);
          return Success(ResponseRecord(run, facts));
      }
    }

    /** A fresh provider, fed a journal in order, computes the specification of the whole journal. */
    method RekeyAll(records: seq<Record>) returns (result: Result<seq<Record>, Reason>)
      requires digests == map[]
      modifies this
      ensures var spec := RekeyJournal(hashes, ids, records);
              && result.Success? == spec.Success?
              && (spec.Success? ==> result.value == spec.value.0 && digests == spec.value.1)
    {
      var out: seq<Record> := [];
      for i := 0 to |records|
        invariant RekeyJournal(hashes, ids, records[..i]) == Success((out, digests))
      {
        assert records[..i + 1][..i] == records[..i];
        var next := RekeyRecord(records[i]);
        if next.Failure? {
          FailurePersists(hashes, ids, records, i + 1);
          return Failure(next.reason);
        }
        out := out + [next.value];
      }
      assert records[..|records|] == records;
      return Success(out);
    }
  }

  lemma {:induction false} FailurePersists(hashes: Hashes, ids: Renaming, records: seq<Record>, i: nat)
    requires i <= |records| && RekeyJournal(hashes, ids, records[..i]).Failure?
    ensures RekeyJournal(hashes, ids, records).Failure?
  {
    if i == |records| {
      assert records[..i] == records;
    } else {
      var before := records[..|records| - 1];
      assert before[..i] == records[..i];
      FailurePersists(hashes, ids, before, i);
    }
  }
}
