// What a rewriting changes, stated without it: a value is its content, with every identity blanked, and
// the identities that stand in it, place by place. A branch keeps the one and replaces each of the others by
// its image (branch-messages.ts). `Blank...` and `...Slots` together tell a value apart from every other.
module BranchSlots {
  import opened Prelude
  import opened BranchRenaming
  import opened BranchJson
  import opened BranchMessages

  /** A place where an identity stands: one of a kind, that of the conversation itself, or that of any
      conversation. */
  datatype Slot = IdSlot(kind: Kind, id: string) | HomeSlot(id: string) | ConversationSlot(id: string)

  function SlotImage(ids: Renaming, source: string, slot: Slot): Slot {
    match slot
    case IdSlot(kind, id) => IdSlot(kind, ids.mint(kind, id))
    case HomeSlot(_) => HomeSlot(ids.conversation)
    case ConversationSlot(id) => ConversationSlot(if id == source then ids.conversation else ids.mint(ChildKind, id))
  }

  function SlotImages(ids: Renaming, source: string, slots: seq<Slot>): (images: seq<Slot>)
    ensures |images| == |slots| && forall i | 0 <= i < |slots| :: images[i] == SlotImage(ids, source, slots[i])
  {
    seq(|slots|, i requires 0 <= i < |slots| => SlotImage(ids, source, slots[i]))
  }

  lemma SlotImagesJoin(ids: Renaming, source: string, a: seq<Slot>, b: seq<Slot>)
    ensures SlotImages(ids, source, a + b) == SlotImages(ids, source, a) + SlotImages(ids, source, b)
  {
  }

  function SlotIfAny(kind: Kind, id: Option<string>): seq<Slot> {
    if id.Some? then [IdSlot(kind, id.value)] else []
  }

  function SlotsOf(kind: Kind, sources: seq<string>): (slots: seq<Slot>)
    ensures |slots| == |sources| && forall i | 0 <= i < |sources| :: slots[i] == IdSlot(kind, sources[i])
  {
    seq(|sources|, i requires 0 <= i < |sources| => IdSlot(kind, sources[i]))
  }

  function OneSlot(kind: Kind, id: string): seq<Slot> {
    [IdSlot(kind, id)]
  }

  function HomeSlots(conversationId: string): seq<Slot> {
    [HomeSlot(conversationId)]
  }

  lemma HeadRenamed(ids: Renaming, source: string, kind: Kind, id: string)
    ensures SlotImages(ids, source, OneSlot(kind, id)) == OneSlot(kind, ids.mint(kind, id))
    ensures SlotImages(ids, source, HomeSlots(id)) == HomeSlots(ids.conversation)
    ensures SlotImages(ids, source, SlotIfAny(kind, Some(id))) == SlotIfAny(kind, Some(ids.mint(kind, id)))
  {
  }

  // ---- lists ------------------------------------------------------------------------------------

  function AllSlots<T>(slotsOf: T -> seq<Slot>, xs: seq<T>): seq<Slot> {
    if xs == [] then [] else slotsOf(xs[0]) + AllSlots(slotsOf, xs[1..])
  }

  function AllBlank<T>(blank: T -> T, xs: seq<T>): (blanked: seq<T>)
    ensures |blanked| == |xs| && forall i | 0 <= i < |xs| :: blanked[i] == blank(xs[i])
  {
    seq(|xs|, i requires 0 <= i < |xs| => blank(xs[i]))
  }

  /** Every element has kept its content and holds the images, in its place. */
  lemma {:induction false} ListSlotsRenamed<T(!new)>(ids: Renaming, source: string, slotsOf: T -> seq<Slot>, xs: seq<T>,
                                                    ys: seq<T>)
    requires |xs| == |ys| && forall i | 0 <= i < |xs| :: slotsOf(ys[i]) == SlotImages(ids, source, slotsOf(xs[i]))
    ensures AllSlots(slotsOf, ys) == SlotImages(ids, source, AllSlots(slotsOf, xs))
  {
    if xs != [] {
      ListSlotsRenamed(ids, source, slotsOf, xs[1..], ys[1..]);
      SlotImagesJoin(ids, source, slotsOf(xs[0]), AllSlots(slotsOf, xs[1..]));
    }
  }

  lemma ListKept<T(!new)>(blank: T -> T, kept: T -> bool, xs: seq<T>, ys: seq<T>)
    requires |xs| == |ys| && forall i | 0 <= i < |xs| :: blank(ys[i]) == blank(xs[i]) <==> kept(xs[i])
    ensures AllBlank(blank, ys) == AllBlank(blank, xs) <==> forall x | x in xs :: kept(x)
  {
    if AllBlank(blank, ys) == AllBlank(blank, xs) {
      forall i | 0 <= i < |xs| ensures kept(xs[i]) {
        assert AllBlank(blank, ys)[i] == AllBlank(blank, xs)[i];
      }
    }
  }

  /** Lists with the same content and the same slots are the same, if that holds of their elements. */
  lemma {:induction false} ListTold<T(!new)>(blank: T -> T, slotsOf: T -> seq<Slot>, xs: seq<T>, ys: seq<T>)
    requires forall x, y | x in xs && y in ys && blank(x) == blank(y) ::
               |slotsOf(x)| == |slotsOf(y)| && (slotsOf(x) == slotsOf(y) ==> x == y)
    requires AllBlank(blank, xs) == AllBlank(blank, ys)
    ensures |AllSlots(slotsOf, xs)| == |AllSlots(slotsOf, ys)|
    ensures AllSlots(slotsOf, xs) == AllSlots(slotsOf, ys) ==> xs == ys
  {
    if xs != [] {
      assert blank(xs[0]) == AllBlank(blank, xs)[0] == AllBlank(blank, ys)[0] == blank(ys[0]);
      forall i | 0 <= i < |xs[1..]| ensures blank(xs[1..][i]) == blank(ys[1..][i]) {
        assert AllBlank(blank, xs)[i + 1] == AllBlank(blank, ys)[i + 1];
      }
      assert AllBlank(blank, xs[1..]) == AllBlank(blank, ys[1..]);
      ListTold(blank, slotsOf, xs[1..], ys[1..]);
      if AllSlots(slotsOf, xs) == AllSlots(slotsOf, ys) {
        JoinedTold(slotsOf(xs[0]), AllSlots(slotsOf, xs[1..]), slotsOf(ys[0]), AllSlots(slotsOf, ys[1..]));
      }
    }
  }

  lemma JoinedTold(a: seq<Slot>, b: seq<Slot>, c: seq<Slot>, d: seq<Slot>)
    requires |a| == |c| && a + b == c + d
    ensures a == c && b == d
  {
    assert a == (a + b)[..|a|] && c == (c + d)[..|c|];
    assert b == (a + b)[|a|..] && d == (c + d)[|c|..];
  }

  lemma SlotsRenamed(ids: Renaming, source: string, kind: Kind, sources: seq<string>)
    requires ids.References(kind, sources).Success?
    ensures SlotsOf(kind, ids.References(kind, sources).value) == SlotImages(ids, source, SlotsOf(kind, sources))
  {
    var targets := ids.References(kind, sources).value;
    assert forall i | 0 <= i < |sources| :: targets[i] == ids.mint(kind, sources[i]);
  }

  function BlankIfAny<T>(blank: T -> T, value: Option<T>): Option<T> {
    if value.Some? then Some(blank(value.value)) else None
  }

  function Blanked(id: string): string {
    ""
  }

  lemma BlankedAlike(xs: seq<string>, ys: seq<string>)
    requires |xs| == |ys|
    ensures AllBlank(Blanked, xs) == AllBlank(Blanked, ys)
  {
  }

  lemma IfAnyRenamed(ids: Renaming, source: string, kind: Kind, id: Option<string>)
    ensures SlotIfAny(kind, ids.DefineIfAny(kind, id)) == SlotImages(ids, source, SlotIfAny(kind, id))
    ensures BlankIfAny(Blanked, ids.DefineIfAny(kind, id)) == BlankIfAny(Blanked, id)
  {
    if id.Some? {
      HeadRenamed(ids, source, kind, id.value);
    }
  }

  // ---- tool payloads and parts --------------------------------------------------------------------

  function ToolJsonSlots(tool: string, value: Json, output: bool): seq<Slot> {
    var shape := ShapeOf(tool, output);
    if Parses(shape, value) then SlotIfAny(SpillKind, SpillOf(shape, value)) else []
  }

  lemma ToolJsonSlotsRenamed(ids: Renaming, source: string, tool: string, value: Json, output: bool)
    requires BranchToolJson(ids, tool, value, output).Success?
    ensures ToolJsonSlots(tool, BranchToolJson(ids, tool, value, output).value, output)
         == SlotImages(ids, source, ToolJsonSlots(tool, value, output))
  {
    var shape := ShapeOf(tool, output);
    if !shape.Application? && SpillOf(shape, value).Some? {
      WithSpillParses(shape, value, ids.mint(SpillKind, SpillOf(shape, value).value));
    }
  }

  function PartSlots(part: Part): seq<Slot> {
    match part
    case FilePart(_, reference, _) => [IdSlot(SpillKind, reference)]
    case ToolCallPart(callId, toolName, input, _) => [IdSlot(CallKind, callId)] + ToolJsonSlots(toolName, input, false)
    case ToolResultPart(callId, toolName, outcome, output) =>
      [IdSlot(CallKind, callId)] +
      (if outcome.ToolSuccess? && output.Some? then ToolJsonSlots(toolName, output.value, true) else [])
    case ApprovalRequestPart(approvalId, callId, _, _) => [IdSlot(ApprovalKind, approvalId), IdSlot(CallKind, callId)]
    case ApprovalResponsePart(approvalId, _, _) => [IdSlot(ApprovalKind, approvalId)]
    case _ => []
  }

  lemma PartSlotsRenamed(ids: Renaming, source: string, part: Part)
    requires BranchPart(ids, part).Success?
    ensures PartSlots(BranchPart(ids, part).value) == SlotImages(ids, source, PartSlots(part))
  {
    match part
    case ToolCallPart(callId, toolName, input, _) =>
      ToolJsonSlotsRenamed(ids, source, toolName, input, false);
      SlotImagesJoin(ids, source, [IdSlot(CallKind, callId)], ToolJsonSlots(toolName, input, false));
    case ToolResultPart(callId, toolName, outcome, output) =>
      if outcome.ToolSuccess? && output.Some? {
        ToolJsonSlotsRenamed(ids, source, toolName, output.value, true);
        SlotImagesJoin(ids, source, [IdSlot(CallKind, callId)], ToolJsonSlots(toolName, output.value, true));
      }
    case _ =>
  }

  // ---- messages and runs ---------------------------------------------------------------------------

  function MessageSlots(message: Message): seq<Slot> {
    [IdSlot(MessageKind, message.id), HomeSlot(message.conversationId)] + SlotIfAny(RunKind, message.runId)
    + AllSlots(PartSlots, message.parts)
  }

  predicate KeepsPart(part: Part) {
    !DropsFields(part)
  }

  /** No part of it is rebuilt without its flag or signature. */
  predicate KeepsMessage(message: Message) {
    forall part | part in message.parts :: KeepsPart(part)
  }

  lemma MessageSlotsRenamed(ids: Renaming, source: string, message: Message)
    requires BranchMessage(ids, source, message).Success?
    ensures MessageSlots(BranchMessage(ids, source, message).value) == SlotImages(ids, source, MessageSlots(message))
  {
    var after := BranchMessage(ids, source, message).value;
    forall i | 0 <= i < |message.parts|
      ensures PartSlots(after.parts[i]) == SlotImages(ids, source, PartSlots(message.parts[i])) {
      PartSlotsRenamed(ids, source, message.parts[i]);
    }
    ListSlotsRenamed(ids, source, PartSlots, message.parts, after.parts);
    var head := [IdSlot(MessageKind, message.id), HomeSlot(message.conversationId)];
    SlotImagesJoin(ids, source, head + SlotIfAny(RunKind, message.runId), AllSlots(PartSlots, message.parts));
    SlotImagesJoin(ids, source, head, SlotIfAny(RunKind, message.runId));
  }

  /** A message is kept but for its identities exactly when none of its parts is rebuilt, and each identity is
      replaced by its own image. */
  lemma MessageKept(ids: Renaming, source: string, message: Message)
    requires BranchMessage(ids, source, message).Success?
    ensures var after := BranchMessage(ids, source, message).value;
            && (BlankMessage(after) == BlankMessage(message) <==> KeepsMessage(message))
            && MessageSlots(after) == SlotImages(ids, source, MessageSlots(message))
  {
    MessageContentKept(ids, source, message);
    MessageSlotsRenamed(ids, source, message);
  }

  function RunHeadSlots(run: Run): seq<Slot> {
    [IdSlot(RunKind, run.id), HomeSlot(run.conversationId), IdSlot(MessageKind, run.assistantMessageId)]
  }

  function LastOperationSlots(operation: Option<RunOperation>): seq<Slot> {
    if operation.Some? then [IdSlot(OperationKind, operation.value.operationId)] else []
  }

  function RunSlots(run: Run): seq<Slot> {
    RunHeadSlots(run) + SlotsOf(MessageKind, run.inputMessageIds) + SlotIfAny(RunKind, run.absorbedIntoRunId)
    + LastOperationSlots(run.lastOperation) + SlotIfAny(OwnerKind, run.ownerId)
  }

  lemma JoinedFive(ids: Renaming, source: string, a: seq<Slot>, b: seq<Slot>, c: seq<Slot>, d: seq<Slot>, e: seq<Slot>)
    ensures SlotImages(ids, source, a + b + c + d + e)
         == SlotImages(ids, source, a) + SlotImages(ids, source, b) + SlotImages(ids, source, c)
            + SlotImages(ids, source, d) + SlotImages(ids, source, e)
  {
    SlotImagesJoin(ids, source, a, b);
    SlotImagesJoin(ids, source, a + b, c);
    SlotImagesJoin(ids, source, a + b + c, d);
    SlotImagesJoin(ids, source, a + b + c + d, e);
  }

  lemma RunSlotsRenamed(ids: Renaming, source: string, run: Run)
    requires BranchRun(ids, source, run, false).Success?
    ensures RunSlots(BranchRun(ids, source, run, false).value) == SlotImages(ids, source, RunSlots(run))
  {
    var after := BranchRun(ids, source, run, false).value;
    JoinedFive(ids, source, RunHeadSlots(run), SlotsOf(MessageKind, run.inputMessageIds),
               SlotIfAny(RunKind, run.absorbedIntoRunId), LastOperationSlots(run.lastOperation),
               SlotIfAny(OwnerKind, run.ownerId));
    assert SlotsOf(MessageKind, after.inputMessageIds)
        == SlotImages(ids, source, SlotsOf(MessageKind, run.inputMessageIds)) by {
      SlotsRenamed(ids, source, MessageKind, run.inputMessageIds);
    }
    assert RunHeadSlots(after) == SlotImages(ids, source, RunHeadSlots(run));
    assert SlotIfAny(RunKind, after.absorbedIntoRunId) == SlotImages(ids, source, SlotIfAny(RunKind, run.absorbedIntoRunId));
    assert LastOperationSlots(after.lastOperation) == SlotImages(ids, source, LastOperationSlots(run.lastOperation));
    assert SlotIfAny(OwnerKind, after.ownerId) == SlotImages(ids, source, SlotIfAny(OwnerKind, run.ownerId));
  }

  /** A run that is not settled is kept but for its identities. */
  lemma RunKept(ids: Renaming, source: string, run: Run)
    requires BranchRun(ids, source, run, false).Success?
    ensures var after := BranchRun(ids, source, run, false).value;
            BlankRun(after) == BlankRun(run) && RunSlots(after) == SlotImages(ids, source, RunSlots(run))
  {
    RunContentKept(ids, source, run, false);
    RunSlotsRenamed(ids, source, run);
  }

  /** A settled one is rewritten like one that nobody owns. */
  lemma SettledForgetsOwner(ids: Renaming, source: string, run: Run)
    ensures BranchRun(ids, source, run, true) == BranchRun(ids, source, run.(ownerId := None, fencingToken := None), false)
  {
  }

  // ---- content and slots tell everything --------------------------------------------------------

  lemma UpdatedTold<K, V>(m: map<K, V>, n: map<K, V>, key: K, value: V)
    requires key in m && key in n && m[key] == n[key] && m[key := value] == n[key := value]
    ensures m == n
  {
    assert m.Keys == m[key := value].Keys == n.Keys;
    assert forall k | k in m && k != key :: m[k] == m[key := value][k] == n[k];
  }

  lemma SpillTold(shape: ToolShape, x: Json, y: Json)
    requires Parses(shape, x) && Parses(shape, y) && SpillOf(shape, x).Some? && SpillOf(shape, y) == SpillOf(shape, x)
    requires WithSpill(shape, x, "") == WithSpill(shape, y, "")
    ensures x == y
  {
    if shape.ShellResult? {
      var a, b := x.fields["artifact"].fields, y.fields["artifact"].fields;
      var blank := Obj(a["reference" := Str("")]);
      assert WithSpill(shape, x, "").fields["artifact"] == WithSpill(shape, y, "").fields["artifact"];
      UpdatedTold(a, b, "reference", Str(""));
      UpdatedTold(x.fields, y.fields, "artifact", blank);
    } else {
      UpdatedTold(x.fields, y.fields, "reference", Str(""));
    }
  }

  lemma WithSpillHasKey(shape: ToolShape, x: Json, y: Json)
    requires Parses(shape, x) && Parses(shape, y)
    requires SpillOf(shape, x).Some? && WithSpill(shape, x, "") == y
    ensures SpillOf(shape, y).Some?
  {
  }

  lemma ToolJsonTold(tool: string, x: Json, y: Json, output: bool)
    requires ToolJsonAccepted(tool, x, output) && ToolJsonAccepted(tool, y, output)
    requires BlankToolJson(tool, x, output) == BlankToolJson(tool, y, output)
    ensures |ToolJsonSlots(tool, x, output)| == |ToolJsonSlots(tool, y, output)|
    ensures ToolJsonSlots(tool, x, output) == ToolJsonSlots(tool, y, output) ==> x == y
  {
    var shape := ShapeOf(tool, output);
    if SpillOf(shape, x).Some? && SpillOf(shape, y).Some? {
      if SpillOf(shape, x) == SpillOf(shape, y) {
        SpillTold(shape, x, y);
      }
    } else if SpillOf(shape, x).Some? {
      WithSpillHasKey(shape, x, y);
    } else if SpillOf(shape, y).Some? {
      WithSpillHasKey(shape, y, x);
    }
  }

  lemma PartTold(x: Part, y: Part)
    requires PartAccepted(x) && PartAccepted(y) && BlankPart(x) == BlankPart(y)
    ensures |PartSlots(x)| == |PartSlots(y)|
    ensures PartSlots(x) == PartSlots(y) ==> x == y
  {
    if x.ToolCallPart? {
      ToolJsonTold(x.toolName, x.input, y.input, false);
      if PartSlots(x) == PartSlots(y) {
        JoinedTold([IdSlot(CallKind, x.callId)], ToolJsonSlots(x.toolName, x.input, false),
                   [IdSlot(CallKind, y.callId)], ToolJsonSlots(y.toolName, y.input, false));
      }
    } else if x.ToolResultPart? && x.outcome.ToolSuccess? && x.output.Some? {
      ToolJsonTold(x.toolName, x.output.value, y.output.value, true);
      if PartSlots(x) == PartSlots(y) {
        JoinedTold([IdSlot(CallKind, x.callId)], ToolJsonSlots(x.toolName, x.output.value, true),
                   [IdSlot(CallKind, y.callId)], ToolJsonSlots(y.toolName, y.output.value, true));
      }
    } else {
      SimplePartTold(x, y);
    }
  }

  lemma SimplePartTold(x: Part, y: Part)
    requires BlankPart(x) == BlankPart(y) && !x.ToolCallPart?
    requires !(x.ToolResultPart? && x.outcome.ToolSuccess? && x.output.Some?)
    ensures |PartSlots(x)| == |PartSlots(y)|
    ensures PartSlots(x) == PartSlots(y) ==> x == y
  {
    if PartSlots(x) == PartSlots(y) && PartSlots(x) != [] {
      assert PartSlots(x)[0] == PartSlots(y)[0];
      assert |PartSlots(x)| > 1 ==> PartSlots(x)[1] == PartSlots(y)[1];
    }
  }

  /** Messages of the same content and with the same identities in the same places are the same. */
  lemma MessageTold(x: Message, y: Message)
    requires MessageAccepted(x) && MessageAccepted(y) && BlankMessage(x) == BlankMessage(y)
    ensures |MessageSlots(x)| == |MessageSlots(y)|
    ensures MessageSlots(x) == MessageSlots(y) ==> x == y
  {
    assert BlankMessage(x).parts == BlankMessage(y).parts;
    assert AllBlank(BlankPart, x.parts) == BlankMessage(x).parts && AllBlank(BlankPart, y.parts) == BlankMessage(y).parts;
    forall a, b | a in x.parts && b in y.parts && BlankPart(a) == BlankPart(b)
      ensures |PartSlots(a)| == |PartSlots(b)| && (PartSlots(a) == PartSlots(b) ==> a == b)
    {
      PartTold(a, b);
    }
    ListTold(BlankPart, PartSlots, x.parts, y.parts);
    if MessageSlots(x) == MessageSlots(y) {
      var head, head' := [IdSlot(MessageKind, x.id), HomeSlot(x.conversationId)] + SlotIfAny(RunKind, x.runId),
                         [IdSlot(MessageKind, y.id), HomeSlot(y.conversationId)] + SlotIfAny(RunKind, y.runId);
      JoinedTold(head, AllSlots(PartSlots, x.parts), head', AllSlots(PartSlots, y.parts));
      assert head[0] == head'[0] && head[1] == head'[1];
      if x.runId.Some? {
        assert head[2] == head'[2];
      }
    }
  }

  lemma SlotIfAnyTold(kind: Kind, x: Option<string>, y: Option<string>)
    requires x.Some? == y.Some?
    ensures |SlotIfAny(kind, x)| == |SlotIfAny(kind, y)|
    ensures SlotIfAny(kind, x) == SlotIfAny(kind, y) ==> x == y
  {
    if x.Some? && SlotIfAny(kind, x) == SlotIfAny(kind, y) {
      assert SlotIfAny(kind, x)[0] == SlotIfAny(kind, y)[0];
    }
  }

  lemma SlotsOfTold(kind: Kind, x: seq<string>, y: seq<string>)
    requires SlotsOf(kind, x) == SlotsOf(kind, y)
    ensures x == y
  {
    forall i | 0 <= i < |x| ensures x[i] == y[i] {
      assert SlotsOf(kind, x)[i] == SlotsOf(kind, y)[i];
    }
  }

  lemma FiveTold(a: seq<Slot>, b: seq<Slot>, c: seq<Slot>, d: seq<Slot>, e: seq<Slot>,
                 a': seq<Slot>, b': seq<Slot>, c': seq<Slot>, d': seq<Slot>, e': seq<Slot>)
    requires |a| == |a'| && |b| == |b'| && |c| == |c'| && |d| == |d'|
    requires a + b + c + d + e == a' + b' + c' + d' + e'
    ensures a == a' && b == b' && c == c' && d == d' && e == e'
  {
    JoinedTold(a + b + c + d, e, a' + b' + c' + d', e');
    JoinedTold(a + b + c, d, a' + b' + c', d');
    JoinedTold(a + b, c, a' + b', c');
    JoinedTold(a, b, a', b');
  }

  lemma RunTold(x: Run, y: Run)
    requires BlankRun(x) == BlankRun(y)
    ensures |RunSlots(x)| == |RunSlots(y)|
    ensures RunSlots(x) == RunSlots(y) ==> x == y
  {
    assert |x.inputMessageIds| == |BlankRun(x).inputMessageIds| == |y.inputMessageIds|;
    if RunSlots(x) == RunSlots(y) {
      FiveTold(RunHeadSlots(x), SlotsOf(MessageKind, x.inputMessageIds), SlotIfAny(RunKind, x.absorbedIntoRunId),
               LastOperationSlots(x.lastOperation), SlotIfAny(OwnerKind, x.ownerId),
               RunHeadSlots(y), SlotsOf(MessageKind, y.inputMessageIds), SlotIfAny(RunKind, y.absorbedIntoRunId),
               LastOperationSlots(y.lastOperation), SlotIfAny(OwnerKind, y.ownerId));
      RunFieldsTold(x, y);
    }
  }

  lemma RunFieldsTold(x: Run, y: Run)
    requires BlankRun(x) == BlankRun(y) && RunHeadSlots(x) == RunHeadSlots(y)
    requires SlotsOf(MessageKind, x.inputMessageIds) == SlotsOf(MessageKind, y.inputMessageIds)
    requires SlotIfAny(RunKind, x.absorbedIntoRunId) == SlotIfAny(RunKind, y.absorbedIntoRunId)
    requires LastOperationSlots(x.lastOperation) == LastOperationSlots(y.lastOperation)
    requires SlotIfAny(OwnerKind, x.ownerId) == SlotIfAny(OwnerKind, y.ownerId)
    ensures x == y
  {
    SlotsOfTold(MessageKind, x.inputMessageIds, y.inputMessageIds);
    SlotIfAnyTold(RunKind, x.absorbedIntoRunId, y.absorbedIntoRunId);
    SlotIfAnyTold(OwnerKind, x.ownerId, y.ownerId);
    assert RunHeadSlots(x)[0] == RunHeadSlots(y)[0] && RunHeadSlots(x)[1] == RunHeadSlots(y)[1];
    assert RunHeadSlots(x)[2] == RunHeadSlots(y)[2];
    if x.lastOperation.Some? {
      assert LastOperationSlots(x.lastOperation)[0] == LastOperationSlots(y.lastOperation)[0];
    }
  }
}
