// Message history of the Prisma store adapter (examples/agent-store-prisma/adapter.ts): rows with
// an integer position and an active flag, shifted and deactivated in place, which have to behave
// like a plain list of messages.
module HistoryTable {
  import opened Prelude

  datatype Message = Message(id: string, conversationId: string, content: string)

  datatype Row = Row(position: int, active: bool, payload: Message)

  /** The rows of one conversation, by message identity. */
  type Rows = map<string, Row>

  datatype Mutation =
    | Admit(input: Message)
    | UpsertAssistant(message: Message)
    | Seed(message: Message)
    | Insert(message: Message, beforeMessageId: Option<string>)
    | ReplaceRange(replacedMessageIds: seq<string>, summary: Message)
  {
    function Written(): Message {
      match this
      case Admit(input) => input
      case ReplaceRange(_, summary) => summary
      case UpsertAssistant(message) => message
      case Seed(message) => message
      case Insert(message, _) => message
    }

    function Anchor(): Option<string> {
      match this
      case Insert(_, before) => before
      case _ => None
    }
  }

  datatype Refusal = RangeChanged | AnchorMissing | DuplicateKey

  // ---- what a history is meant to be: a list, and the messages retired from it -------------

  datatype Plain = Plain(history: seq<Message>, retired: set<string>)

  function IndexOf(history: seq<Message>, id: string): (i: nat)
    ensures i <= |history|
    ensures i < |history| ==> history[i].id == id
    ensures forall j :: 0 <= j < i ==> history[j].id != id
  {
    if history == [] || history[0].id == id then 0 else 1 + IndexOf(history[1..], id)
  }

  function FirstIn(history: seq<Message>, ids: set<string>): (i: nat)
    ensures i <= |history|
    ensures i < |history| ==> history[i].id in ids
    ensures forall j :: 0 <= j < i ==> history[j].id !in ids
  {
    if history == [] || history[0].id in ids then 0 else 1 + FirstIn(history[1..], ids)
  }

  function Without(history: seq<Message>, ids: set<string>): seq<Message> {
    if history == [] then []
    else (if history[0].id in ids then [] else [history[0]]) + Without(history[1..], ids)
  }

  predicate Contains(history: seq<Message>, id: string) {
    exists i :: 0 <= i < |history| && history[i].id == id
  }

  function IdSet(ids: seq<string>): set<string> {
    set id | id in ids
  }

  predicate Distinct(ids: seq<string>) {
    forall i, j :: 0 <= i < j < |ids| ==> ids[i] != ids[j]
  }

  /** The plain-list meaning of a mutation. */
  function ApplyPlain(plain: Plain, mutation: Mutation): Result<Plain, Refusal> {
    var message := mutation.Written();
    if mutation.ReplaceRange? then
      var ids := IdSet(mutation.replacedMessageIds);
      if !Replaceable(plain.history, mutation.replacedMessageIds) then Failure(RangeChanged)
      else if Contains(plain.history, message.id) || message.id in plain.retired then Failure(DuplicateKey)
      else
        var i := FirstIn(plain.history, ids);
        Success(Plain(plain.history[..i] + [message] + Without(plain.history[i..], ids), plain.retired + ids))
    else if Contains(plain.history, message.id) then
      Success(plain.(history := plain.history[IndexOf(plain.history, message.id) := message]))
    else if message.id in plain.retired then Success(plain)
    else match mutation.Anchor()
      case Some(anchor) =>
        if !Contains(plain.history, anchor) then Failure(AnchorMissing)
        else
          var i := IndexOf(plain.history, anchor);
          Success(plain.(history := plain.history[..i] + [message] + plain.history[i..]))
      case None =>
        Success(plain.(history := if mutation.Seed? then [message] + plain.history else plain.history + [message]))
  }

  /** A range can be compacted when it names at least one message, none twice, all active. */
  predicate Replaceable(history: seq<Message>, ids: seq<string>) {
    ids != [] && Distinct(ids) && forall id | id in ids :: Contains(history, id)
  }

  // ---- rows ------------------------------------------------------------------------------------

  /** Rows are keyed by their message, and active rows have pairwise distinct positions. */
  ghost predicate Valid(rows: Rows) {
    && Keyed(rows)
    && (forall a, b | a in rows && b in rows && a != b && rows[a].active && rows[b].active ::
          rows[a].position != rows[b].position)
  }

  ghost predicate Keyed(rows: Rows) {
    forall id | id in rows :: rows[id].payload.id == id
  }

  /** `history` is the active rows in increasing position. */
  ghost predicate Lists(rows: Rows, history: seq<Message>) {
    Backed(rows, history) && Ascending(rows, history) && Complete(rows, history)
  }

  ghost predicate Backed(rows: Rows, history: seq<Message>) {
    forall i | 0 <= i < |history| ::
      history[i].id in rows && rows[history[i].id].active && rows[history[i].id].payload == history[i]
  }

  ghost predicate Ascending(rows: Rows, history: seq<Message>) {
    && (forall i | 0 <= i < |history| :: history[i].id in rows)
    && (forall i, j | 0 <= i < j < |history| :: rows[history[i].id].position < rows[history[j].id].position)
  }

  ghost predicate Complete(rows: Rows, history: seq<Message>) {
    forall id | id in rows && rows[id].active :: Contains(history, id)
  }

  ghost function Retired(rows: Rows): set<string> {
    set id | id in rows && !rows[id].active
  }

  ghost predicate IsLowest(rows: Rows, among: set<string>, id: string) {
    id in among && id in rows && forall other | other in among && other in rows :: rows[id].position <= rows[other].position
  }

  ghost predicate IsHighest(rows: Rows, among: set<string>, id: string) {
    id in among && id in rows && forall other | other in among && other in rows :: rows[other].position <= rows[id].position
  }

  lemma ExtremesExist(rows: Rows, among: set<string>)
    requires among != {} && among <= rows.Keys
    ensures exists id :: IsLowest(rows, among, id)
    ensures exists id :: IsHighest(rows, among, id)
  {
    var id :| id in among;
    if among == {id} {
      assert IsLowest(rows, among, id) && IsHighest(rows, among, id);
    } else {
      var rest := among - {id};
      ExtremesExist(rows, rest);
      var low :| IsLowest(rows, rest, low);
      var high :| IsHighest(rows, rest, high);
      assert IsLowest(rows, among, if rows[id].position <= rows[low].position then id else low);
      assert IsHighest(rows, among, if rows[id].position >= rows[high].position then id else high);
    }
  }

  ghost function Lowest(rows: Rows, among: set<string>): (id: string)
    requires among != {} && among <= rows.Keys
    ensures IsLowest(rows, among, id)
  {
    ExtremesExist(rows, among);
    var id :| IsLowest(rows, among, id);
    id
  }

  ghost function Highest(rows: Rows, among: set<string>): (id: string)
    requires among != {} && among <= rows.Keys
    ensures IsHighest(rows, among, id)
  {
    ExtremesExist(rows, among);
    var id :| IsHighest(rows, among, id);
    id
  }

  ghost function Active(rows: Rows): set<string> {
    set id | id in rows && rows[id].active
  }

  /** `history.load`: the active rows, ordered by position. */
  ghost function Load(rows: Rows): (history: seq<Message>)
    requires Valid(rows)
    ensures Lists(rows, history)
    decreases Active(rows)
  {
    if Active(rows) == {} then
      assert forall id | id in rows && rows[id].active :: id in Active(rows);
      []
    else
      var first := Lowest(rows, Active(rows));
      var rest := Deactivated(rows, first);
      assert Active(rest) == Active(rows) - {first};
      LoadStep(rows, first, Load(rest));
      [rows[first].payload] + Load(rest)
  }

  ghost function Deactivated(rows: Rows, id: string): Rows
    requires id in rows
  {
    rows[id := Row(rows[id].position, false, rows[id].payload)]
  }

  lemma LoadStep(rows: Rows, first: string, history: seq<Message>)
    requires Valid(rows) && IsLowest(rows, Active(rows), first)
    requires Lists(Deactivated(rows, first), history)
    ensures Lists(rows, [rows[first].payload] + history)
  {
    var rest := Deactivated(rows, first);
    var whole := [rows[first].payload] + history;
    forall i | 0 <= i < |history| ensures history[i].id != first && history[i].id in Active(rows) {
      assert rest[history[i].id].active;
    }
    assert forall i :: 0 < i < |whole| ==> whole[i] == history[i - 1];
    assert forall i :: 0 <= i < |history| ==> rest[history[i].id] == rows[history[i].id];
    forall id | id in rows && rows[id].active ensures Contains(whole, id) {
      if id == first {
        assert whole[0].id == id;
      } else {
        assert rest[id].active;
        var i :| 0 <= i < |history| && history[i].id == id;
        assert whole[i + 1].id == id;
      }
    }
  }

  /** The order is determined by the rows: there is only one such list. */
  lemma {:induction false} ListsUnique(rows: Rows, a: seq<Message>, b: seq<Message>)
    requires Valid(rows) && Lists(rows, a) && Lists(rows, b)
    ensures a == b
  {
    if a == [] {
      assert b != [] ==> Contains(a, b[0].id);
    } else {
      assert Contains(b, a[0].id);
      assert Contains(a, b[0].id);
      assert a[0] == b[0];
      ListsTail(rows, a);
      ListsTail(rows, b);
      ListsUnique(Deactivated(rows, a[0].id), a[1..], b[1..]);
    }
  }

  lemma ListsTail(rows: Rows, a: seq<Message>)
    requires Valid(rows) && Lists(rows, a) && a != []
    ensures Valid(Deactivated(rows, a[0].id)) && Lists(Deactivated(rows, a[0].id), a[1..])
  {
    var rest, tail := Deactivated(rows, a[0].id), a[1..];
    forall i | 0 <= i < |tail| ensures tail[i].id != a[0].id {
      assert rows[a[0].id].position < rows[a[i + 1].id].position;
    }
    forall id | id in rest && rest[id].active ensures Contains(tail, id) {
      assert Contains(a, id);
      var i :| 0 <= i < |a| && a[i].id == id;
      assert tail[i - 1].id == id;
    }
  }

  // ---- what the adapter does to the rows ----------------------------------------------------

  ghost function Shifted(rows: Rows, from: int): Rows {
    map id | id in rows ::
      if rows[id].position >= from then Row(rows[id].position + 1, rows[id].active, rows[id].payload) else rows[id]
  }

  ghost function AllDeactivated(rows: Rows, ids: set<string>): Rows {
    map id | id in rows :: if id in ids then Row(rows[id].position, false, rows[id].payload) else rows[id]
  }

  /** The active rows a compaction finds for the identities it names. */
  ghost function Found(rows: Rows, ids: seq<string>): set<string> {
    set id | id in ids && id in rows && rows[id].active
  }

  /** The position a new row gets at the end, or, for a seed, at the front: inactive rows count. */
  ghost function NewPosition(rows: Rows, seed: bool): int {
    if seed then (if rows == map[] then 0 else rows[Lowest(rows, rows.Keys)].position) - 1
    else (if rows == map[] then -1 else rows[Highest(rows, rows.Keys)].position) + 1
  }

  /** `history.apply` on the rows of one conversation. */
  ghost function ApplyRows(rows: Rows, mutation: Mutation): Result<Rows, Refusal> {
    var message := mutation.Written();
    if mutation.ReplaceRange? then
      var found := Found(rows, mutation.replacedMessageIds);
      if found == {} || |found| != |mutation.replacedMessageIds| then Failure(RangeChanged)
      else if message.id in rows then Failure(DuplicateKey)
      else
        var position := rows[Lowest(rows, found)].position;
        Success(AllDeactivated(rows, IdSet(mutation.replacedMessageIds))[message.id := Row(position, true, message)])
    else if message.id in rows then
      Success(rows[message.id := Row(rows[message.id].position, rows[message.id].active, message)])
    else match mutation.Anchor()
      case Some(anchor) =>
        if anchor !in rows || !rows[anchor].active then Failure(AnchorMissing)
        else Success(Shifted(rows, rows[anchor].position)[message.id := Row(rows[anchor].position, true, message)])
      case None => Success(rows[message.id := Row(NewPosition(rows, mutation.Seed?), true, message)])
  }

  // ---- the rows refine the list ------------------------------------------------------------------

  /** The mutation of the rows lists what the mutation of the list is, refusals included. */
  ghost predicate Refines(rows: Rows, history: seq<Message>, mutation: Mutation) {
    var plain := ApplyPlain(Plain(history, Retired(rows)), mutation);
    match ApplyRows(rows, mutation)
    case Failure(refusal) => plain == Failure(refusal)
    case Success(after) =>
      Valid(after) && plain.Success? && Lists(after, plain.value.history) && plain.value.retired == Retired(after)
  }

  lemma RefinesTo(rows: Rows, history: seq<Message>, mutation: Mutation, after: Rows, history': seq<Message>)
    requires ApplyRows(rows, mutation) == Success(after) && Valid(after) && Lists(after, history')
    requires ApplyPlain(Plain(history, Retired(rows)), mutation) == Success(Plain(history', Retired(after)))
    ensures Refines(rows, history, mutation)
  {
  }

  lemma ContainsIffActive(rows: Rows, history: seq<Message>, id: string)
    requires Lists(rows, history)
    ensures Contains(history, id) <==> id in rows && rows[id].active
  {
  }

  /** A list whose messages are those of another, up to one that is new, is complete when that was. */
  lemma CompleteWith(rows: Rows, history: seq<Message>, after: Rows, history': seq<Message>, added: string)
    requires Complete(rows, history) && Contains(history', added)
    requires forall id | id in after && after[id].active && id != added :: id in rows && rows[id].active
    requires forall i | 0 <= i < |history| ::
               Contains(history', history[i].id) || history[i].id !in after || !after[history[i].id].active
    ensures Complete(after, history')
  {
    forall id | id in after && after[id].active ensures Contains(history', id) {
      if id != added {
        assert Contains(history, id);
        var i :| 0 <= i < |history| && history[i].id == id;
      }
    }
  }

  lemma UpdateLists(rows: Rows, history: seq<Message>, message: Message, i: nat)
    requires Valid(rows) && Lists(rows, history) && i < |history| && history[i].id == message.id
    ensures var after := rows[message.id := Row(rows[message.id].position, true, message)];
            Valid(after) && Lists(after, history[i := message]) && Retired(after) == Retired(rows)
  {
    var after := rows[message.id := Row(rows[message.id].position, true, message)];
    UpdateKeepsOrder(rows, history, message, i);
    UpdateKeepsAll(rows, history, message, i);
  }

  lemma UpdateKeepsOrder(rows: Rows, history: seq<Message>, message: Message, i: nat)
    requires Lists(rows, history) && i < |history| && history[i].id == message.id
    ensures var after := rows[message.id := Row(rows[message.id].position, true, message)];
            Ascending(after, history[i := message]) && Backed(after, history[i := message])
  {
    var after := rows[message.id := Row(rows[message.id].position, true, message)];
    var history' := history[i := message];
    assert forall j :: 0 <= j < |history| ==> history'[j].id == history[j].id;
    assert forall j :: 0 <= j < |history| && j != i ==> history[j].id != message.id;
    assert Ascending(after, history');
  }

  lemma UpdateKeepsAll(rows: Rows, history: seq<Message>, message: Message, i: nat)
    requires Lists(rows, history) && i < |history| && history[i].id == message.id
    ensures Complete(rows[message.id := Row(rows[message.id].position, true, message)], history[i := message])
  {
    var after := rows[message.id := Row(rows[message.id].position, true, message)];
    var history' := history[i := message];
    assert Contains(history', message.id) by { assert history'[i].id == message.id; }
    forall j | 0 <= j < |history| ensures Contains(history', history[j].id) {
      assert history'[j].id == history[j].id;
    }
    CompleteWith(rows, history, after, history', message.id);
  }

  /** Overwriting a retired message changes nothing that is listed. */
  lemma OverwriteRetired(rows: Rows, history: seq<Message>, message: Message)
    requires Valid(rows) && Lists(rows, history) && message.id in rows && !rows[message.id].active
    ensures var after := rows[message.id := Row(rows[message.id].position, false, message)];
            Valid(after) && Lists(after, history) && Retired(after) == Retired(rows)
  {
    var after := rows[message.id := Row(rows[message.id].position, false, message)];
    assert forall i :: 0 <= i < |history| ==> history[i].id != message.id && after[history[i].id] == rows[history[i].id];
    assert Backed(after, history) && Ascending(after, history) && Complete(after, history);
  }

  lemma UpdateRefines(rows: Rows, history: seq<Message>, mutation: Mutation)
    requires Valid(rows) && Lists(rows, history) && !mutation.ReplaceRange? && mutation.Written().id in rows
    ensures Refines(rows, history, mutation)
  {
    var message := mutation.Written();
    ContainsIffActive(rows, history, message.id);
    if rows[message.id].active {
      UpdateLists(rows, history, message, IndexOf(history, message.id));
    } else {
      OverwriteRetired(rows, history, message);
    }
  }

  lemma AppendRefines(rows: Rows, history: seq<Message>, mutation: Mutation)
    requires Valid(rows) && Lists(rows, history)
    requires !mutation.ReplaceRange? && mutation.Written().id !in rows && mutation.Anchor().None?
    ensures Refines(rows, history, mutation)
  {
    var message := mutation.Written();
    ContainsIffActive(rows, history, message.id);
    var history' := if mutation.Seed? then [message] + history else history + [message];
    assert ApplyPlain(Plain(history, Retired(rows)), mutation) == Success(Plain(history', Retired(rows)));
    EdgeLists(rows, history, message, mutation.Seed?);
  }

  /** A new row outside all positions, inactive ones included, lands at the edge of the list. */
  lemma EdgeLists(rows: Rows, history: seq<Message>, message: Message, seed: bool)
    requires Valid(rows) && Lists(rows, history) && message.id !in rows
    ensures var after := rows[message.id := Row(NewPosition(rows, seed), true, message)];
            Valid(after) && Retired(after) == Retired(rows)
            && Lists(after, if seed then [message] + history else history + [message])
  {
    NewPositionIsOutside(rows, seed);
    if seed {
      FirstLists(rows, history, message, NewPosition(rows, true));
    } else {
      LastLists(rows, history, message, NewPosition(rows, false));
    }
  }

  lemma FirstLists(rows: Rows, history: seq<Message>, message: Message, position: int)
    requires Valid(rows) && Lists(rows, history) && message.id !in rows
    requires forall id | id in rows :: position < rows[id].position
    ensures var after := rows[message.id := Row(position, true, message)];
            Valid(after) && Retired(after) == Retired(rows) && Lists(after, [message] + history)
  {
    assert history == [] + history && [] + [message] + history == [message] + history;
    PlacedLists(rows, history, rows, [], history, message, position);
  }

  lemma LastLists(rows: Rows, history: seq<Message>, message: Message, position: int)
    requires Valid(rows) && Lists(rows, history) && message.id !in rows
    requires forall id | id in rows :: rows[id].position < position
    ensures var after := rows[message.id := Row(position, true, message)];
            Valid(after) && Retired(after) == Retired(rows) && Lists(after, history + [message])
  {
    assert history == history + [] && history + [message] + [] == history + [message];
    PlacedLists(rows, history, rows, history, [], message, position);
  }

  lemma NewPositionIsOutside(rows: Rows, seed: bool)
    ensures forall id | id in rows ::
              if seed then NewPosition(rows, seed) < rows[id].position else rows[id].position < NewPosition(rows, seed)
  {
  }

  /** `moved` holds the same rows in the same order. */
  ghost predicate Moved(rows: Rows, moved: Rows) {
    && moved.Keys == rows.Keys
    && (forall id | id in rows :: moved[id].active == rows[id].active && moved[id].payload == rows[id].payload)
    && (forall a, b | a in rows && b in rows && rows[a].position < rows[b].position :: moved[a].position < moved[b].position)
  }

  ghost predicate Below(rows: Rows, part: seq<Message>, position: int) {
    forall i | 0 <= i < |part| :: part[i].id in rows && rows[part[i].id].position < position
  }

  ghost predicate Above(rows: Rows, part: seq<Message>, position: int) {
    forall i | 0 <= i < |part| :: part[i].id in rows && position < rows[part[i].id].position
  }

  /** A row placed between the messages before it and the messages behind it, once room is made. */
  lemma PlacedLists(rows: Rows, history: seq<Message>, moved: Rows, before: seq<Message>, behind: seq<Message>,
                    message: Message, position: int)
    requires Valid(rows) && Lists(rows, history) && history == before + behind && message.id !in rows
    requires Moved(rows, moved) && Below(moved, before, position) && Above(moved, behind, position)
    ensures var after := moved[message.id := Row(position, true, message)];
            Valid(after) && Lists(after, before + [message] + behind) && Retired(after) == Retired(rows)
  {
    PlacedBacked(rows, history, moved, before, behind, message, position);
    PlacedOrder(rows, history, moved, before, behind, message, position);
    PlacedComplete(rows, history, moved, before, behind, message, position);
    PlacedKeyed(rows, moved, message, position);
    AscendingIsValid(moved[message.id := Row(position, true, message)], before + [message] + behind);
  }

  lemma PlacedKeyed(rows: Rows, moved: Rows, message: Message, position: int)
    requires Keyed(rows) && message.id !in rows && Moved(rows, moved)
    ensures var after := moved[message.id := Row(position, true, message)];
            Keyed(after) && Retired(after) == Retired(rows)
  {
  }

  lemma PlacedOrder(rows: Rows, history: seq<Message>, moved: Rows, before: seq<Message>, behind: seq<Message>,
                    message: Message, position: int)
    requires Backed(rows, history) && Ascending(rows, history) && history == before + behind && message.id !in rows
    requires Moved(rows, moved) && Below(moved, before, position) && Above(moved, behind, position)
    ensures Ascending(moved[message.id := Row(position, true, message)], before + [message] + behind)
  {
    var after := moved[message.id := Row(position, true, message)];
    assert Ascending(after, before) by {
      assert forall i :: 0 <= i < |before| ==> history[i] == before[i] && after[before[i].id] == moved[before[i].id];
    }
    assert Ascending(after, behind) by {
      assert forall i :: 0 <= i < |behind| ==>
               history[|before| + i] == behind[i] && after[behind[i].id] == moved[behind[i].id];
    }
    PlacedAscends(after, before, message, behind);
  }

  lemma PlacedComplete(rows: Rows, history: seq<Message>, moved: Rows, before: seq<Message>, behind: seq<Message>,
                       message: Message, position: int)
    requires Lists(rows, history) && history == before + behind && message.id !in rows && Moved(rows, moved)
    ensures Complete(moved[message.id := Row(position, true, message)], before + [message] + behind)
  {
    var after, history' := moved[message.id := Row(position, true, message)], before + [message] + behind;
    assert history'[|before|] == message;
    assert Contains(history', message.id);
    forall i | 0 <= i < |history| ensures Contains(history', history[i].id) {
      assert history'[if i < |before| then i else i + 1].id == history[i].id;
    }
    CompleteWith(rows, history, after, history', message.id);
  }

  lemma PlacedBacked(rows: Rows, history: seq<Message>, moved: Rows, before: seq<Message>, behind: seq<Message>,
                     message: Message, position: int)
    requires Backed(rows, history) && history == before + behind && message.id !in rows && Moved(rows, moved)
    ensures Backed(moved[message.id := Row(position, true, message)], before + [message] + behind)
  {
    var after, history' := moved[message.id := Row(position, true, message)], before + [message] + behind;
    forall k | 0 <= k < |history'|
      ensures history'[k].id in after && after[history'[k].id].active && after[history'[k].id].payload == history'[k]
    {
      if k != |before| {
        assert history'[k] == history[if k < |before| then k else k - 1];
      }
    }
  }

  /** Listed rows have distinct positions, because the list ascends strictly. */
  lemma AscendingIsValid(rows: Rows, history: seq<Message>)
    requires Lists(rows, history)
    ensures forall a, b | a in rows && b in rows && a != b && rows[a].active && rows[b].active ::
              rows[a].position != rows[b].position
  {
    forall a, b | a in rows && b in rows && a != b && rows[a].active && rows[b].active
      ensures rows[a].position != rows[b].position
    {
      assert Contains(history, a) && Contains(history, b);
      var i :| 0 <= i < |history| && history[i].id == a;
      var j :| 0 <= j < |history| && history[j].id == b;
      assert i < j || j < i;
    }
  }

  lemma PlacedAscends(after: Rows, head: seq<Message>, message: Message, tail: seq<Message>)
    requires message.id in after
    requires forall k | 0 <= k < |head| :: head[k].id in after && after[head[k].id].position < after[message.id].position
    requires forall k | 0 <= k < |tail| :: tail[k].id in after && after[message.id].position < after[tail[k].id].position
    requires Ascending(after, head) && Ascending(after, tail)
    ensures Ascending(after, head + [message] + tail)
  {
    var whole := head + [message] + tail;
    forall j, k | 0 <= j < k < |whole| ensures after[whole[j].id].position < after[whole[k].id].position {
      if k < |head| {
        assert whole[j] == head[j] && whole[k] == head[k];
      } else if j > |head| {
        assert whole[j] == tail[j - |head| - 1] && whole[k] == tail[k - |head| - 1];
      }
    }
  }

  lemma InsertRefines(rows: Rows, history: seq<Message>, mutation: Mutation)
    requires Valid(rows) && Lists(rows, history)
    requires !mutation.ReplaceRange? && mutation.Written().id !in rows && mutation.Anchor().Some?
    ensures Refines(rows, history, mutation)
  {
    var message, anchor := mutation.Written(), mutation.Anchor().value;
    InsertApplies(rows, history, mutation);
    if anchor in rows && rows[anchor].active {
      var i, position := IndexOf(history, anchor), rows[anchor].position;
      var after := Shifted(rows, position)[message.id := Row(position, true, message)];
      assert Valid(after) && Lists(after, history[..i] + [message] + history[i..]) && Retired(after) == Retired(rows) by {
        InsertLists(rows, history, message, i);
      }
      RefinesTo(rows, history, mutation, after, history[..i] + [message] + history[i..]);
    }
  }

  lemma InsertLists(rows: Rows, history: seq<Message>, message: Message, i: nat)
    requires Valid(rows) && Lists(rows, history) && i < |history| && message.id !in rows
    ensures var position := rows[history[i].id].position;
            var after := Shifted(rows, position)[message.id := Row(position, true, message)];
            Valid(after) && Lists(after, history[..i] + [message] + history[i..]) && Retired(after) == Retired(rows)
  {
    var position := rows[history[i].id].position;
    ShiftMakesRoom(rows, history, i);
    assert history == history[..i] + history[i..];
    PlacedLists(rows, history, Shifted(rows, position), history[..i], history[i..], message, position);
  }

  /** What an insertion before an anchor does, to the rows and to the list. */
  lemma InsertApplies(rows: Rows, history: seq<Message>, mutation: Mutation)
    requires Lists(rows, history)
    requires !mutation.ReplaceRange? && mutation.Written().id !in rows && mutation.Anchor().Some?
    ensures var message, anchor, plain := mutation.Written(), mutation.Anchor().value, Plain(history, Retired(rows));
            if anchor !in rows || !rows[anchor].active then
              ApplyRows(rows, mutation) == Failure(AnchorMissing) && ApplyPlain(plain, mutation) == Failure(AnchorMissing)
            else
              var i, position := IndexOf(history, anchor), rows[anchor].position;
              && i < |history| && history[i].id == anchor
              && ApplyRows(rows, mutation) == Success(Shifted(rows, position)[message.id := Row(position, true, message)])
              && ApplyPlain(plain, mutation) == Success(Plain(history[..i] + [message] + history[i..], Retired(rows)))
  {
    ContainsIffActive(rows, history, mutation.Written().id);
    ContainsIffActive(rows, history, mutation.Anchor().value);
  }

  /** Shifting everything from the anchor on opens exactly the place before it. */
  lemma ShiftMakesRoom(rows: Rows, history: seq<Message>, i: nat)
    requires Lists(rows, history) && i < |history|
    ensures var position := rows[history[i].id].position;
            var moved := Shifted(rows, position);
            Moved(rows, moved) && Below(moved, history[..i], position) && Above(moved, history[i..], position)
  {
    var position := rows[history[i].id].position;
    var moved := Shifted(rows, position);
    forall j | 0 <= j < |history[i..]|
      ensures history[i..][j].id in moved && position < moved[history[i..][j].id].position
    {
      assert history[i..][j] == history[i + j];
    }
  }

  // ---- compaction -------------------------------------------------------------------------------

  lemma {:induction false} DistinctCounts(ids: seq<string>)
    ensures |IdSet(ids)| <= |ids|
    ensures |IdSet(ids)| == |ids| <==> Distinct(ids)
  {
    if ids != [] {
      var first, rest := ids[0], ids[1..];
      DistinctCounts(rest);
      assert IdSet(ids) == IdSet(rest) + {first};
      if first in rest {
        assert IdSet(ids) == IdSet(rest);
        var k :| 0 <= k < |rest| && rest[k] == first;
        assert ids[0] == ids[k + 1];
      } else {
        assert Distinct(rest) ==> Distinct(ids);
        assert Distinct(ids) ==> Distinct(rest) by {
          if Distinct(ids) {
            forall i, j | 0 <= i < j < |rest| ensures rest[i] != rest[j] {
              assert ids[i + 1] == rest[i] && ids[j + 1] == rest[j];
            }
          }
        }
      }
    }
  }

  /** The row count check of a compaction says exactly that the range is replaceable. */
  lemma FoundMeansReplaceable(rows: Rows, history: seq<Message>, ids: seq<string>)
    requires Lists(rows, history)
    ensures Found(rows, ids) != {} && |Found(rows, ids)| == |ids| <==> Replaceable(history, ids)
    ensures Replaceable(history, ids) ==> Found(rows, ids) == IdSet(ids) && IdSet(ids) != {} && IdSet(ids) <= Active(rows)
  {
    DistinctCounts(ids);
    var found := Found(rows, ids);
    assert found <= IdSet(ids);
    forall id | id in ids ensures Contains(history, id) <==> id in found {
      ContainsIffActive(rows, history, id);
    }
    if found != {} && |found| == |ids| {
      SubsetIsSmaller(found, IdSet(ids));
      SubsetOfSameSize(found, IdSet(ids));
      assert forall id | id in ids :: id in found;
      assert ids != [];
    }
    if Replaceable(history, ids) {
      assert forall id | id in ids :: id in found;
      assert found == IdSet(ids);
      assert ids[0] in found;
    }
  }

  lemma SubsetOfSameSize(a: set<string>, b: set<string>)
    requires a <= b && |a| >= |b|
    ensures a == b
  {
    if x :| x in b && x !in a {
      assert a <= b - {x};
      SubsetIsSmaller(a, b - {x});
    }
  }

  /** Where each message of a filtered list comes from, and that nothing else is dropped. */
  lemma {:induction false} WithoutKeeps(history: seq<Message>, ids: set<string>)
    ensures forall message :: message in Without(history, ids) <==> message in history && message.id !in ids
  {
    if history != [] {
      WithoutKeeps(history[1..], ids);
      assert forall message :: message in history <==> message == history[0] || message in history[1..];
    }
  }

  /** What is kept of the rest of a list lies behind its first message. */
  lemma KeptBehind(rows: Rows, history: seq<Message>, kept: seq<Message>)
    requires Ascending(rows, history) && history != []
    requires forall message | message in kept :: message in history[1..]
    ensures forall k | 0 <= k < |kept| :: kept[k].id in rows
    ensures Above(rows, kept, rows[history[0].id].position)
  {
    forall k | 0 <= k < |kept|
      ensures kept[k].id in rows && rows[history[0].id].position < rows[kept[k].id].position
    {
      assert kept[k] in history[1..];
      var j :| 0 <= j < |history[1..]| && history[1..][j] == kept[k];
      assert history[j + 1] == kept[k];
    }
  }

  lemma AscendsBehind(rows: Rows, first: Message, kept: seq<Message>)
    requires first.id in rows && Ascending(rows, kept) && Above(rows, kept, rows[first.id].position)
    ensures Ascending(rows, [first] + kept)
  {
    var whole := [first] + kept;
    assert forall i :: 0 < i < |whole| ==> whole[i] == kept[i - 1];
  }

  lemma AscendingRest(rows: Rows, history: seq<Message>)
    requires Ascending(rows, history) && history != []
    ensures Ascending(rows, history[1..])
  {
    assert forall j :: 0 <= j < |history[1..]| ==> history[1..][j] == history[j + 1];
  }

  lemma {:induction false} WithoutAscends(rows: Rows, history: seq<Message>, ids: set<string>)
    requires Ascending(rows, history)
    ensures Ascending(rows, Without(history, ids))
  {
    if history != [] {
      var kept := Without(history[1..], ids);
      AscendingRest(rows, history);
      WithoutAscends(rows, history[1..], ids);
      WithoutKeeps(history[1..], ids);
      KeptBehind(rows, history, kept);
      if history[0].id in ids {
        assert Without(history, ids) == kept;
      } else {
        AscendsBehind(rows, history[0], kept);
      }
    }
  }

  lemma PlaceOf(rows: Rows, history: seq<Message>, id: string) returns (i: nat)
    requires Complete(rows, history) && id in rows && rows[id].active
    ensures i < |history| && history[i].id == id
  {
    assert Contains(history, id);
    i :| 0 <= i < |history| && history[i].id == id;
  }

  /** The first replaced message in the list is the replaced row of lowest position. */
  lemma FirstIsLowest(rows: Rows, ids: set<string>, history: seq<Message>)
    requires Lists(rows, history) && ids <= Active(rows) && ids != {}
    ensures FirstIn(history, ids) < |history|
    ensures rows[history[FirstIn(history, ids)].id].position == rows[Lowest(rows, ids)].position
  {
    var lowest, i := Lowest(rows, ids), FirstIn(history, ids);
    assert lowest in Active(rows);
    var j := PlaceOf(rows, history, lowest);
    assert i <= j && rows[lowest].position <= rows[history[i].id].position;
  }

  /** What is kept behind the first replaced message lies behind it, and is not touched. */
  lemma TailBehind(rows: Rows, history: seq<Message>, ids: set<string>, i: nat, tail: seq<Message>)
    requires Lists(rows, history) && i < |history| && history[i].id in ids && tail == Without(history[i..], ids)
    ensures forall k | 0 <= k < |tail| :: tail[k] in history && tail[k].id !in ids && tail[k].id in rows
    ensures Above(rows, tail, rows[history[i].id].position)
  {
    WithoutKeeps(history[i..], ids);
    forall k | 0 <= k < |tail|
      ensures tail[k] in history && tail[k].id !in ids && tail[k].id in rows
      ensures rows[history[i].id].position < rows[tail[k].id].position
    {
      assert tail[k] in history[i..];
      var j :| 0 <= j < |history[i..]| && history[i..][j] == tail[k];
      assert history[i + j] == tail[k];
    }
  }

  lemma ReplaceLists(rows: Rows, history: seq<Message>, ids: set<string>, message: Message, position: int)
    requires Valid(rows) && Lists(rows, history) && message.id !in rows
    requires ids != {} && ids <= Active(rows) && position == rows[Lowest(rows, ids)].position
    ensures var i := FirstIn(history, ids);
            var after := AllDeactivated(rows, ids)[message.id := Row(position, true, message)];
            Valid(after) && Lists(after, history[..i] + [message] + Without(history[i..], ids))
            && Retired(after) == Retired(rows) + ids
  {
    var after := AllDeactivated(rows, ids)[message.id := Row(position, true, message)];
    FirstIsLowest(rows, ids, history);
    var i := FirstIn(history, ids);
    ReplaceOrder(rows, history, ids, message, position, i);
    ReplaceComplete(rows, history, ids, after, i, message);
    ReplaceRetires(rows, ids, message, position);
    AscendingIsValid(after, history[..i] + [message] + Without(history[i..], ids));
  }

  lemma ReplaceOrder(rows: Rows, history: seq<Message>, ids: set<string>, message: Message, position: int, i: nat)
    requires Lists(rows, history) && message.id !in rows
    requires i == FirstIn(history, ids) < |history| && rows[history[i].id].position == position
    ensures var after := AllDeactivated(rows, ids)[message.id := Row(position, true, message)];
            var history' := history[..i] + [message] + Without(history[i..], ids);
            Backed(after, history') && Ascending(after, history')
  {
    var after := AllDeactivated(rows, ids)[message.id := Row(position, true, message)];
    var head, tail := history[..i], Without(history[i..], ids);
    ReplaceKeepsRows(rows, history, ids, message, position, i);
    ReplaceBacked(rows, history, after, head, message, tail);
    PlacedAscends(after, head, message, tail);
  }

  lemma ReplaceRetires(rows: Rows, ids: set<string>, message: Message, position: int)
    requires Keyed(rows) && ids <= Active(rows) && message.id !in rows
    ensures var after := AllDeactivated(rows, ids)[message.id := Row(position, true, message)];
            Keyed(after) && Retired(after) == Retired(rows) + ids
  {
  }

  ghost predicate Untouched(rows: Rows, after: Rows, history: seq<Message>, part: seq<Message>) {
    forall k | 0 <= k < |part| ::
      part[k] in history && part[k].id in rows && part[k].id in after && after[part[k].id] == rows[part[k].id]
  }

  /** The rows on both sides of the summary are untouched, in order, and on their side. */
  lemma ReplaceKeepsRows(rows: Rows, history: seq<Message>, ids: set<string>, message: Message, position: int, i: nat)
    requires Lists(rows, history) && message.id !in rows
    requires i == FirstIn(history, ids) < |history| && rows[history[i].id].position == position
    ensures var after := AllDeactivated(rows, ids)[message.id := Row(position, true, message)];
            var head, tail := history[..i], Without(history[i..], ids);
            && Untouched(rows, after, history, head) && Untouched(rows, after, history, tail)
            && Below(after, head, position) && Above(after, tail, position)
            && Ascending(after, head) && Ascending(after, tail)
  {
    var after := AllDeactivated(rows, ids)[message.id := Row(position, true, message)];
    var head, tail := history[..i], Without(history[i..], ids);
    HeadBefore(rows, history, ids, after, position, i);
    TailBehind(rows, history, ids, i, tail);
    assert Ascending(rows, tail) by {
      assert forall j :: 0 <= j < |history[i..]| ==> history[i..][j] == history[i + j];
      WithoutAscends(rows, history[i..], ids);
    }
  }

  lemma HeadBefore(rows: Rows, history: seq<Message>, ids: set<string>, after: Rows, position: int, i: nat)
    requires Lists(rows, history) && i == FirstIn(history, ids) < |history| && rows[history[i].id].position == position
    requires forall id | id in rows && id !in ids :: id in after && after[id] == rows[id]
    ensures Untouched(rows, after, history, history[..i]) && Below(after, history[..i], position)
    ensures Ascending(after, history[..i])
  {
    assert forall k :: 0 <= k < i ==> history[..i][k] == history[k];
  }

  lemma ReplaceBacked(rows: Rows, history: seq<Message>, after: Rows, head: seq<Message>, message: Message,
                      tail: seq<Message>)
    requires Backed(rows, history)
    requires message.id in after && after[message.id].active && after[message.id].payload == message
    requires Untouched(rows, after, history, head) && Untouched(rows, after, history, tail)
    ensures Backed(after, head + [message] + tail)
  {
    var whole := head + [message] + tail;
    assert forall m | m in history :: m.id in rows && rows[m.id].active && rows[m.id].payload == m;
    forall k | 0 <= k < |whole|
      ensures whole[k].id in after && after[whole[k].id].active && after[whole[k].id].payload == whole[k]
    {
      assert whole[k] == if k < |head| then head[k] else if k == |head| then message else tail[k - |head| - 1];
    }
  }

  lemma ReplaceComplete(rows: Rows, history: seq<Message>, ids: set<string>, after: Rows, i: nat, message: Message)
    requires Lists(rows, history) && i <= |history| && message.id !in rows
    requires forall id | id in after && id != message.id :: id in rows && (after[id].active ==> rows[id].active && id !in ids)
    ensures Complete(after, history[..i] + [message] + Without(history[i..], ids))
  {
    var tail := Without(history[i..], ids);
    var history' := history[..i] + [message] + tail;
    WithoutKeeps(history[i..], ids);
    assert Contains(history', message.id) by { assert history'[i] == message; }
    forall j | 0 <= j < |history| && history[j].id in after && after[history[j].id].active
      ensures Contains(history', history[j].id)
    {
      if j < i {
        assert history'[j] == history[j];
      } else {
        assert history[i..][j - i] == history[j];
        assert history[j] in tail;
        var k :| 0 <= k < |tail| && tail[k] == history[j];
        assert history'[i + 1 + k] == history[j];
      }
    }
    CompleteWith(rows, history, after, history', message.id);
  }

  lemma ReplaceRefines(rows: Rows, history: seq<Message>, mutation: Mutation)
    requires Valid(rows) && Lists(rows, history) && mutation.ReplaceRange?
    ensures Refines(rows, history, mutation)
  {
    if Replaceable(history, mutation.replacedMessageIds) && mutation.summary.id !in rows {
      ReplaceDone(rows, history, mutation);
    } else {
      ReplaceRefused(rows, history, mutation);
    }
  }

  lemma ReplaceRefused(rows: Rows, history: seq<Message>, mutation: Mutation)
    requires Lists(rows, history) && mutation.ReplaceRange?
    requires !Replaceable(history, mutation.replacedMessageIds) || mutation.summary.id in rows
    ensures Refines(rows, history, mutation)
  {
    FoundMeansReplaceable(rows, history, mutation.replacedMessageIds);
    ContainsIffActive(rows, history, mutation.summary.id);
  }

  lemma ReplaceDone(rows: Rows, history: seq<Message>, mutation: Mutation)
    requires Valid(rows) && Lists(rows, history) && mutation.ReplaceRange?
    requires Replaceable(history, mutation.replacedMessageIds) && mutation.summary.id !in rows
    ensures Refines(rows, history, mutation)
  {
    var ids, message := IdSet(mutation.replacedMessageIds), mutation.summary;
    assert ids != {} && ids <= Active(rows) by {
      FoundMeansReplaceable(rows, history, mutation.replacedMessageIds);
    }
    var position, i := rows[Lowest(rows, ids)].position, FirstIn(history, ids);
    var after := AllDeactivated(rows, ids)[message.id := Row(position, true, message)];
    var history' := history[..i] + [message] + Without(history[i..], ids);
    assert Valid(after) && Lists(after, history') && Retired(after) == Retired(rows) + ids by {
      ReplaceLists(rows, history, ids, message, position);
    }
    ReplaceApplies(rows, history, mutation);
    RefinesTo(rows, history, mutation, after, history');
  }

  /** What a compaction that is not refused does, to the rows and to the list. */
  lemma ReplaceApplies(rows: Rows, history: seq<Message>, mutation: Mutation)
    requires Lists(rows, history) && mutation.ReplaceRange? && mutation.summary.id !in rows
    requires Replaceable(history, mutation.replacedMessageIds)
    ensures var ids, message := IdSet(mutation.replacedMessageIds), mutation.summary;
            && ids != {} && ids <= rows.Keys
            && var i, position := FirstIn(history, ids), rows[Lowest(rows, ids)].position;
               && ApplyRows(rows, mutation) == Success(AllDeactivated(rows, ids)[message.id := Row(position, true, message)])
               && ApplyPlain(Plain(history, Retired(rows)), mutation)
                    == Success(Plain(history[..i] + [message] + Without(history[i..], ids), Retired(rows) + ids))
  {
    FoundMeansReplaceable(rows, history, mutation.replacedMessageIds);
    ContainsIffActive(rows, history, mutation.summary.id);
    assert mutation.summary.id !in Retired(rows);
  }

  lemma EveryMutationRefines(rows: Rows, history: seq<Message>, mutation: Mutation)
    requires Valid(rows) && Lists(rows, history)
    ensures Refines(rows, history, mutation)
  {
    if mutation.ReplaceRange? {
      ReplaceRefines(rows, history, mutation);
    } else if mutation.Written().id in rows {
      UpdateRefines(rows, history, mutation);
    } else if mutation.Anchor().None? {
      AppendRefines(rows, history, mutation);
    } else {
      InsertRefines(rows, history, mutation);
    }
  }

  ghost function PlainOf(rows: Rows): Plain
    requires Valid(rows)
  {
    Plain(Load(rows), Retired(rows))
  }

  /** Loading after a mutation is the mutation of the plain list, refusals included, and active
      positions stay distinct; inactive rows sharing or shifting through positions never show. */
  lemma ApplyRefines(rows: Rows, mutation: Mutation)
    requires Valid(rows)
    ensures match ApplyRows(rows, mutation)
            case Failure(refusal) => ApplyPlain(PlainOf(rows), mutation) == Failure(refusal)
            case Success(after) => Valid(after) && ApplyPlain(PlainOf(rows), mutation) == Success(PlainOf(after))
  {
    EveryMutationRefines(rows, Load(rows), mutation);
    if ApplyRows(rows, mutation).Success? {
      var after := ApplyRows(rows, mutation).value;
      ListsUnique(after, Load(after), ApplyPlain(PlainOf(rows), mutation).value.history);
    }
  }

  lemma ApplyKeepsValid(rows: Rows, mutation: Mutation)
    requires Valid(rows)
    ensures ApplyRows(rows, mutation).Success? ==> Valid(ApplyRows(rows, mutation).value)
  {
    EveryMutationRefines(rows, Load(rows), mutation);
  }

  // ---- every reachable table --------------------------------------------------------------------

  /** A refused mutation rolls its transaction back. */
  ghost function RunRows(mutations: seq<Mutation>): Rows {
    if mutations == [] then map[] else
      var before := RunRows(mutations[..|mutations| - 1]);
      var result := ApplyRows(before, mutations[|mutations| - 1]);
      if result.Success? then result.value else before
  }

  function RunPlain(mutations: seq<Mutation>): Plain {
    if mutations == [] then Plain([], {}) else
      var before := RunPlain(mutations[..|mutations| - 1]);
      var result := ApplyPlain(before, mutations[|mutations| - 1]);
      if result.Success? then result.value else before
  }

  /** After any sequence of mutations the table loads exactly what the plain list holds. */
  lemma {:induction false} TableIsList(mutations: seq<Mutation>)
    ensures Valid(RunRows(mutations)) && PlainOf(RunRows(mutations)) == RunPlain(mutations)
  {
    if mutations == [] {
      assert Load(map[]) == [];
    } else {
      TableIsList(mutations[..|mutations| - 1]);
      ApplyRefines(RunRows(mutations[..|mutations| - 1]), mutations[|mutations| - 1]);
    }
  }

  // ---- the adapter itself: queries and writes inside one transaction -----------------------------

  /** `orderBy: { position: 'asc' }`, first row; the identities are all in the table. */
  method FirstByPosition(rows: Rows, among: set<string>) returns (first: Option<string>)
    requires among <= rows.Keys
    ensures first.None? <==> among == {}
    ensures first.Some? ==> IsLowest(rows, among, first.value)
  {
    first := None;
    var left := among;
    while left != {}
      invariant left <= among
      invariant first.None? ==> left == among
      invariant first.Some? ==> left != among && IsLowest(rows, among - left, first.value)
      decreases left
    {
      var id :| id in left;
      if first.None? || rows[id].position < rows[first.value].position {
        first := Some(id);
      }
      left := left - {id};
    }
  }

  method LastByPosition(rows: Rows, among: set<string>) returns (last: Option<string>)
    requires among <= rows.Keys
    ensures last.None? <==> among == {}
    ensures last.Some? ==> IsHighest(rows, among, last.value)
  {
    last := None;
    var left := among;
    while left != {}
      invariant left <= among
      invariant last.None? ==> left == among
      invariant last.Some? ==> left != among && IsHighest(rows, among - left, last.value)
      decreases left
    {
      var id :| id in left;
      if last.None? || rows[id].position > rows[last.value].position {
        last := Some(id);
      }
      left := left - {id};
    }
  }

  class HistoryStore {
    /** The message table, one group of rows per conversation. */
    var tables: map<string, Rows>

    ghost predicate AllValid()
      reads this
    {
      forall conversation | conversation in tables :: Valid(tables[conversation])
    }

    function Table(conversation: string): Rows
      reads this
    {
      if conversation in tables then tables[conversation] else map[]
    }

    constructor ()
      ensures tables == map[] && AllValid()
    {
      tables := map[];
    }

    /** One `history.apply` in its transaction: a refusal leaves the table as it was. */
    method Apply(mutation: Mutation) returns (refusal: Option<Refusal>)
      requires AllValid()
      modifies this
      ensures AllValid()
      ensures var conversation := mutation.Written().conversationId;
              && (forall other | other in old(tables) && other != conversation ::
                    other in tables && tables[other] == old(tables[other]))
              && (match ApplyRows(old(Table(conversation)), mutation)
                  case Failure(reason) => refusal == Some(reason) && tables == old(tables)
                  case Success(after) => refusal == None && Table(conversation) == after)
    {
      var conversation := mutation.Written().conversationId;
      var rows := Table(conversation);
      ApplyKeepsValid(rows, mutation);
      var result: Result<Rows, Refusal>;
      if mutation.ReplaceRange? {
        result := Compact(rows, mutation.replacedMessageIds, mutation.summary);
      } else {
        result := Write(rows, mutation);
      }
      if result.Failure? {
        return Some(result.reason);
      }
      tables := tables[conversation := result.value];
      refusal := None;
    }

    static method Compact(rows: Rows, ids: seq<string>, summary: Message) returns (result: Result<Rows, Refusal>)
      ensures result == ApplyRows(rows, ReplaceRange(ids, summary))
    {
      var found := set id | id in ids && id in rows && rows[id].active;
      var first := FirstByPosition(rows, found);
      if first.None? || |found| != |ids| {
        return Failure(RangeChanged);
      }
      var position := rows[first.value].position;
      var retired := Deactivate(rows, ids);
      if summary.id in retired {
        return Failure(DuplicateKey);
      }
      result := Success(retired[summary.id := Row(position, true, summary)]);
    }

    static method Write(rows: Rows, mutation: Mutation) returns (result: Result<Rows, Refusal>)
      requires !mutation.ReplaceRange?
      ensures result == ApplyRows(rows, mutation)
    {
      var message := mutation.Written();
      var existing := message.id in rows;
      var anchor := if existing then None else mutation.Anchor();
      if anchor.Some? {
        if anchor.value !in rows || !rows[anchor.value].active {
          return Failure(AnchorMissing);
        }
        var position := rows[anchor.value].position;
        var moved := ShiftFrom(rows, position);
        result := Success(moved[message.id := Row(position, true, message)]);
      } else if existing {
        var row := rows[message.id];
        result := Success(rows[message.id := Row(row.position, row.active, message)]);
      } else {
        var position := EndPosition(rows, mutation.Seed?);
        result := Success(rows[message.id := Row(position, true, message)]);
      }
    }

    static method EndPosition(rows: Rows, seed: bool) returns (position: int)
      ensures position == NewPosition(rows, seed)
    {
      if seed {
        var last := FirstByPosition(rows, rows.Keys);
        position := (if last.Some? then rows[last.value].position else 0) - 1;
      } else {
        var last := LastByPosition(rows, rows.Keys);
        position := (if last.Some? then rows[last.value].position else -1) + 1;
      }
    }

    /** `updateMany` with `position: { increment: 1 }`, row by row. */
    static method ShiftFrom(rows: Rows, from: int) returns (moved: Rows)
      ensures moved == Shifted(rows, from)
    {
      moved := rows;
      var left := rows.Keys;
      while left != {}
        invariant left <= rows.Keys == moved.Keys
        invariant forall id | id in rows :: moved[id] == if id in left then rows[id] else Shifted(rows, from)[id]
        decreases left
      {
        var id :| id in left;
        if moved[id].position >= from {
          moved := moved[id := Row(moved[id].position + 1, moved[id].active, moved[id].payload)];
        }
        left := left - {id};
      }
    }

    /** `updateMany` with `active: false`, identity by identity. */
    static method Deactivate(rows: Rows, ids: seq<string>) returns (retired: Rows)
      ensures retired == AllDeactivated(rows, IdSet(ids))
    {
      retired := rows;
      for i := 0 to |ids|
        invariant retired == AllDeactivated(rows, IdSet(ids[..i]))
      {
        assert IdSet(ids[..i + 1]) == IdSet(ids[..i]) + {ids[i]};
        if ids[i] in retired {
          var row := retired[ids[i]];
          retired := retired[ids[i] := Row(row.position, false, row.payload)];
        }
      }
      assert ids[..|ids|] == ids;
    }
  }
}
