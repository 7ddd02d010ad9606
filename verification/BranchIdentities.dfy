// The identity maps of one branch: definitions are collected before references resolve
// (branch-identities.ts).
module BranchIdentities {
  import opened Prelude
  import opened BranchRenaming
  import opened BranchMessages
  import opened BranchTransitions

  /** The digest of destination conversation, request key, kind and source identity. */
  type IdentityDigest = (string, string, Kind, string) -> RecordId

  class Identities {
    const conversationId: RecordId
    const requestKey: string
    const sourceConversationId: string
    const digest: IdentityDigest
    var definitions: map<Kind, map<string, RecordId>>
    var references: map<Kind, set<string>>

    /** The collected identities, and the ones a reference has used. */
    ghost var defined: set<Identity>
    ghost var referenced: set<Identity>

    /** A definition maps a source to the target its kind and name alone determine. */
    ghost predicate Valid()
      reads this
    {
      && (forall kind, source :: (kind, source) in defined <==> kind in definitions && source in definitions[kind])
      && (forall kind, source :: (kind, source) in referenced <==> kind in references && source in references[kind])
      && (forall kind, source | (kind, source) in defined ::
            definitions[kind][source] == digest(conversationId, requestKey, kind, source))
    }

    function MintOf(): Mint {
      var (d, c, r) := (digest, conversationId, requestKey);
      (kind: Kind, source: string) => d(c, r, kind, source)
    }

    /** The renaming these maps stand for, which the rewriting functions are stated over. */
    ghost function AsRenaming(): Renaming
      reads this
    {
      Renaming(conversationId, MintOf(), defined)
    }

    constructor (conversationId: RecordId, requestKey: string, sourceConversationId: string, digest: IdentityDigest)
      ensures Valid() && defined == {} && referenced == {}
      ensures this.conversationId == conversationId && this.sourceConversationId == sourceConversationId
    {
      this.conversationId, this.requestKey, this.sourceConversationId := conversationId, requestKey, sourceConversationId;
      this.digest := digest;
      definitions, references, defined, referenced := map[], map[], {}, {};
    }

    method Define(kind: Kind, source: string) returns (target: RecordId)
      requires Valid()
      modifies this`definitions, this`defined
      ensures Valid() && defined == old(defined) + {(kind, source)}
      ensures target == digest(conversationId, requestKey, kind, source)
    {
      var values: map<string, RecordId> := if kind in definitions then definitions[kind] else map[];
      target := if source in values then values[source] else digest(conversationId, requestKey, kind, source);
      definitions := definitions[kind := values[source := target]];
      defined := defined + {(kind, source)};
    }

    /** A foreign identity is refused and mints nothing; a known one is recorded as used. */
    method Reference(kind: Kind, source: string) returns (result: Result<string, Reason>)
      requires Valid()
      modifies this`references, this`referenced
      ensures Valid() && result == AsRenaming().Reference(kind, source)
      ensures referenced == old(referenced) + (if result.Success? then {(kind, source)} else {})
    {
      if !(kind in definitions && source in definitions[kind]) {
        return Failure(ForeignReference(kind));
      }
      var used := if kind in references then references[kind] else {};
      references := references[kind := used + {source}];
      referenced := referenced + {(kind, source)};
      return Success(definitions[kind][source]);
    }

    method CollectPart(part: Part)
      requires Valid()
      modifies this`definitions, this`defined
      ensures Valid() && defined == old(defined) + PartDefinitions(part)
    {
      if part.ToolCallPart? {
        var _ := Define(CallKind, part.callId);
      }
      if part.ApprovalRequestPart? {
        var _ := Define(ApprovalKind, part.approvalId);
      }
    }

    method CollectMessage(message: Message)
      requires Valid()
      modifies this`definitions, this`defined
      ensures Valid() && defined == old(defined) + MessageDefinitions(message)
    {
      var _ := Define(MessageKind, message.id);
      ghost var start := defined;
      for i := 0 to |message.parts|
        invariant Valid()
        invariant defined == start + AllIds(PartDefinitions, message.parts[..i])
      {
        CollectPart(message.parts[i]);
        AllIdsGrow(PartDefinitions, message.parts, i);
      }
      assert message.parts[..|message.parts|] == message.parts;
    }

    method CollectMessages(messages: seq<Message>)
      requires Valid()
      modifies this`definitions, this`defined
      ensures Valid() && defined == old(defined) + AllIds(MessageDefinitions, messages)
    {
      for i := 0 to |messages|
        invariant Valid() && defined == old(defined) + AllIds(MessageDefinitions, messages[..i])
      {
        CollectMessage(messages[i]);
        AllIdsGrow(MessageDefinitions, messages, i);
      }
      assert messages[..|messages|] == messages;
    }

    method CollectRun(run: Run)
      requires Valid()
      modifies this`definitions, this`defined
      ensures Valid() && defined == old(defined) + RunDefinitions(run)
    {
      var _ := Define(RunKind, run.id);
      var _ := Define(MessageKind, run.assistantMessageId);
      assert defined == old(defined) + {(RunKind, run.id), (MessageKind, run.assistantMessageId)};
      if run.lastOperation.Some? {
        var _ := Define(OperationKind, run.lastOperation.value.operationId);
      }
    }

    method CollectAdmission(run: Run, input: Message)
      requires Valid()
      modifies this`definitions, this`defined
      ensures Valid() && defined == old(defined) + (RunDefinitions(run) + MessageDefinitions(input))
    {
      CollectRun(run);
      CollectMessage(input);
    }

    method CollectRecovered(recovered: Option<Message>)
      requires Valid()
      modifies this`definitions, this`defined
      ensures Valid() && defined == old(defined) + if recovered.Some? then MessageDefinitions(recovered.value) else {}
    {
      if recovered.Some? {
        CollectMessage(recovered.value);
      }
    }

    /** The operations that carry one message at most. */
    method CollectCarried(operation: Operation)
      requires Valid() && !operation.Accept? && !operation.Seed? && !operation.RecordOperation?
      modifies this`definitions, this`defined
      ensures Valid() && defined == old(defined) + OperationDefinitions(operation)
    {
      match operation {
        case Checkpoint(_, _, _, assistant, _) => CollectMessage(assistant);
        case Terminal(_, _, _, assistant, _, _) => CollectMessage(assistant);
        case Recover(_, _, _, recovered, _) => CollectRecovered(recovered);
        case Compact(_, _, summary, _) => CollectMessage(summary);
        case _ =>
      }
    }

    method CollectOperation(operation: Operation)
      requires Valid()
      modifies this`definitions, this`defined
      ensures Valid() && defined == old(defined) + OperationDefinitions(operation)
    {
      match operation {
        case Accept(_, input, run, _, _) => CollectAdmission(run, input);
        case Seed(_, _, inputs, _) => CollectMessages(inputs);
        case RecordOperation(_, _, _, recorded, _) =>
          var _ := Define(OperationKind, recorded.operationId);
        case _ => CollectCarried(operation);
      }
    }
  }

  lemma AllIdsGrow<T(!new)>(idsOf: T -> set<Identity>, xs: seq<T>, i: nat)
    requires i < |xs|
    ensures AllIds(idsOf, xs[..i + 1]) == AllIds(idsOf, xs[..i]) + idsOf(xs[i])
  {
    assert forall x :: x in xs[..i + 1] <==> x in xs[..i] || x == xs[i];
  }
}
