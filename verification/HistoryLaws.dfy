// What each mutation of a history does to the list that is loaded, one law per kind, in terms of
// messages and places alone (examples/agent-store-prisma/adapter.ts).
module HistoryLaws {
  import opened Prelude
  import opened HistoryTable

  ghost predicate Shows(rows: Rows, id: string) {
    id in rows && rows[id].active
  }

  /** The mutation is carried out; the history is then this one, and these messages are hidden. */
  ghost predicate Leads(rows: Rows, mutation: Mutation, history: seq<Message>, retired: set<string>) {
    match ApplyRows(rows, mutation)
    case Failure(_) => false
    case Success(after) => Valid(after) && Load(after) == history && Retired(after) == retired
  }

  ghost predicate Refused(rows: Rows, mutation: Mutation, refusal: Refusal) {
    ApplyRows(rows, mutation) == Failure(refusal)
  }

  lemma PlainLeads(rows: Rows, mutation: Mutation, history: seq<Message>, retired: set<string>)
    requires Valid(rows) && ApplyPlain(PlainOf(rows), mutation) == Success(Plain(history, retired))
    ensures Leads(rows, mutation, history, retired)
  {
    ApplyRefines(rows, mutation);
  }

  lemma PlainRefuses(rows: Rows, mutation: Mutation, refusal: Refusal)
    requires Valid(rows) && ApplyPlain(PlainOf(rows), mutation) == Failure(refusal)
    ensures Refused(rows, mutation, refusal)
  {
    ApplyRefines(rows, mutation);
  }

  // ---- messages that are new ------------------------------------------------------------------

  lemma NewIsNowhere(rows: Rows, id: string)
    requires Valid(rows) && id !in rows
    ensures !Contains(PlainOf(rows).history, id) && id !in PlainOf(rows).retired
  {
    ContainsIffActive(rows, Load(rows), id);
  }

  /** A new seed comes before everything that is loaded. */
  lemma SeedComesFirst(rows: Rows, message: Message)
    requires Valid(rows) && message.id !in rows
    ensures Leads(rows, Seed(message), [message] + Load(rows), Retired(rows))
  {
    NewIsNowhere(rows, message.id);
    PlainLeads(rows, Seed(message), [message] + Load(rows), Retired(rows));
  }

  /** Whatever else is new and has no anchor comes behind it. */
  lemma NewComesLast(rows: Rows, message: Message, mutation: Mutation)
    requires Valid(rows) && message.id !in rows
    requires mutation == Admit(message) || mutation == UpsertAssistant(message) || mutation == Insert(message, None)
    ensures Leads(rows, mutation, Load(rows) + [message], Retired(rows))
  {
    NewIsNowhere(rows, message.id);
    PlainLeads(rows, mutation, Load(rows) + [message], Retired(rows));
  }

  /** A new message with an anchor comes right before it; it is refused exactly when none is in sight. */
  lemma InsertComesBefore(rows: Rows, message: Message, anchor: string)
    requires Valid(rows) && message.id !in rows
    ensures if Shows(rows, anchor) then
              exists i :: 0 <= i < |Load(rows)| && Load(rows)[i].id == anchor
                && Leads(rows, Insert(message, Some(anchor)), Load(rows)[..i] + [message] + Load(rows)[i..], Retired(rows))
            else Refused(rows, Insert(message, Some(anchor)), AnchorMissing)
  {
    var history := Load(rows);
    NewIsNowhere(rows, message.id);
    ContainsIffActive(rows, history, anchor);
    if Shows(rows, anchor) {
      var i := IndexOf(history, anchor);
      assert i < |history| && history[i].id == anchor;
      PlainLeads(rows, Insert(message, Some(anchor)), history[..i] + [message] + history[i..], Retired(rows));
    } else {
      PlainRefuses(rows, Insert(message, Some(anchor)), AnchorMissing);
    }
  }

  // ---- messages that are known ----------------------------------------------------------------

  predicate Brings(mutation: Mutation, message: Message) {
    || mutation == Admit(message) || mutation == UpsertAssistant(message) || mutation == Seed(message)
    || (mutation.Insert? && mutation.message == message)
  }

  /** A message in sight is exchanged where it stands, whatever brings it and with whatever anchor. */
  lemma KnownStaysInPlace(rows: Rows, message: Message, mutation: Mutation)
    requires Valid(rows) && Shows(rows, message.id) && Brings(mutation, message)
    ensures exists i :: 0 <= i < |Load(rows)| && Load(rows)[i].id == message.id
              && Leads(rows, mutation, Load(rows)[i := message], Retired(rows))
  {
    var history := Load(rows);
    ContainsIffActive(rows, history, message.id);
    var i := IndexOf(history, message.id);
    assert i < |history| && history[i].id == message.id;
    PlainLeads(rows, mutation, history[i := message], Retired(rows));
  }

  /** A retired one stays out of sight, and nothing that is loaded changes. */
  lemma RetiredStaysHidden(rows: Rows, message: Message, mutation: Mutation)
    requires Valid(rows) && message.id in rows && !Shows(rows, message.id) && Brings(mutation, message)
    ensures Leads(rows, mutation, Load(rows), Retired(rows))
  {
    ContainsIffActive(rows, Load(rows), message.id);
    PlainLeads(rows, mutation, Load(rows), Retired(rows));
  }

  // ---- a range that is replaced ---------------------------------------------------------------

  ghost predicate Precedes(history: seq<Message>, first: Message, second: Message) {
    exists i, j :: 0 <= i < j < |history| && history[i] == first && history[j] == second
  }

  /** The summary stands where the first of the replaced messages stood, all of these are gone, and the
      others are there in their order. */
  ghost predicate Summarised(history: seq<Message>, ids: set<string>, summary: Message, after: seq<Message>) {
    && (exists i ::
          && 0 <= i < |history| && i < |after| && history[i].id in ids && after[i] == summary && after[..i] == history[..i]
          && forall j | 0 <= j < i :: history[j].id !in ids)
    && (forall message :: message in after <==> message == summary || (message in history && message.id !in ids))
    && (forall a: Message, b: Message | a.id !in ids && b.id !in ids && Precedes(history, a, b) :: Precedes(after, a, b))
  }

  lemma PrecedesInJoined(before: seq<Message>, behind: seq<Message>, a: Message, b: Message)
    ensures Precedes(before + behind, a, b) <==>
              Precedes(before, a, b) || Precedes(behind, a, b) || (a in before && b in behind)
  {
    PrecedesSplit(before, behind, a, b);
    var whole := before + behind;
    if Precedes(before, a, b) {
      var i, j :| 0 <= i < j < |before| && before[i] == a && before[j] == b;
      assert whole[i] == a && whole[j] == b;
    }
    if Precedes(behind, a, b) {
      var i, j :| 0 <= i < j < |behind| && behind[i] == a && behind[j] == b;
      assert whole[|before| + i] == a && whole[|before| + j] == b;
    }
    if a in before && b in behind {
      var i :| 0 <= i < |before| && before[i] == a;
      var j :| 0 <= j < |behind| && behind[j] == b;
      assert whole[i] == a && whole[|before| + j] == b;
    }
  }

  lemma PrecedesSplit(before: seq<Message>, behind: seq<Message>, a: Message, b: Message)
    ensures Precedes(before + behind, a, b) ==>
              Precedes(before, a, b) || Precedes(behind, a, b) || (a in before && b in behind)
  {
    var whole := before + behind;
    if Precedes(whole, a, b) {
      var i, j :| 0 <= i < j < |whole| && whole[i] == a && whole[j] == b;
      if |before| <= i {
        assert behind[i - |before|] == a && behind[j - |before|] == b;
      }
    }
  }

  lemma {:induction false} WithoutKeepsOrder(history: seq<Message>, ids: set<string>, a: Message, b: Message)
    requires a.id !in ids && b.id !in ids && Precedes(history, a, b)
    ensures Precedes(Without(history, ids), a, b)
  {
    var rest := Without(history[1..], ids);
    assert history == [history[0]] + history[1..];
    PrecedesInJoined([history[0]], history[1..], a, b);
    WithoutKeeps(history[1..], ids);
    if Precedes(history[1..], a, b) {
      WithoutKeepsOrder(history[1..], ids, a, b);
    }
    PrecedesInJoined(if history[0].id in ids then [] else [history[0]], rest, a, b);
  }

  /** An order inside either half, or across the place where something came in, is kept. */
  lemma OrderAround(history: seq<Message>, i: nat, ids: set<string>, summary: Message, a: Message, b: Message)
    requires i < |history| && a.id !in ids && b.id !in ids && Precedes(history, a, b)
    ensures Precedes(history[..i] + [summary] + Without(history[i..], ids), a, b)
  {
    var head, tail := history[..i], Without(history[i..], ids);
    assert history == head + history[i..];
    PrecedesInJoined(head, history[i..], a, b);
    WithoutKeeps(history[i..], ids);
    if Precedes(history[i..], a, b) {
      WithoutKeepsOrder(history[i..], ids, a, b);
    }
    PrecedesInJoined(head, [summary], a, b);
    PrecedesInJoined(head + [summary], tail, a, b);
  }

  lemma MembersAround(history: seq<Message>, i: nat, ids: set<string>, summary: Message)
    requires i < |history| && forall j | 0 <= j < i :: history[j].id !in ids
    ensures forall message :: message in history[..i] + [summary] + Without(history[i..], ids) <==>
              message == summary || (message in history && message.id !in ids)
  {
    WithoutKeeps(history[i..], ids);
    assert history == history[..i] + history[i..];
  }

  lemma PlainSummarises(history: seq<Message>, i: nat, ids: set<string>, summary: Message)
    requires i < |history| && history[i].id in ids && forall j | 0 <= j < i :: history[j].id !in ids
    ensures Summarised(history, ids, summary, history[..i] + [summary] + Without(history[i..], ids))
  {
    var after := history[..i] + [summary] + Without(history[i..], ids);
    assert after[i] == summary && after[..i] == history[..i];
    MembersAround(history, i, ids, summary);
    forall a: Message, b: Message | a.id !in ids && b.id !in ids && Precedes(history, a, b) ensures Precedes(after, a, b) {
      OrderAround(history, i, ids, summary, a, b);
    }
  }

  ghost predicate Named(rows: Rows, ids: seq<string>) {
    ids != [] && Distinct(ids) && forall id | id in ids :: Shows(rows, id)
  }

  lemma FirstIsThere(history: seq<Message>, ids: seq<string>)
    requires Replaceable(history, ids)
    ensures FirstIn(history, IdSet(ids)) < |history|
  {
    assert ids[0] in ids && Contains(history, ids[0]);
    var i :| 0 <= i < |history| && history[i].id == ids[0];
    assert history[i].id in IdSet(ids);
  }

  lemma NamedIsReplaceable(rows: Rows, ids: seq<string>)
    requires Valid(rows)
    ensures Replaceable(Load(rows), ids) <==> Named(rows, ids)
  {
    forall id | id in ids ensures Contains(Load(rows), id) <==> Shows(rows, id) {
      ContainsIffActive(rows, Load(rows), id);
    }
  }

  lemma PlainReplaces(history: seq<Message>, retired: set<string>, ids: seq<string>, summary: Message)
      returns (after: seq<Message>)
    requires Replaceable(history, ids) && !Contains(history, summary.id) && summary.id !in retired
    ensures ApplyPlain(Plain(history, retired), ReplaceRange(ids, summary)) == Success(Plain(after, retired + IdSet(ids)))
    ensures Summarised(history, IdSet(ids), summary, after)
  {
    FirstIsThere(history, ids);
    var i := FirstIn(history, IdSet(ids));
    PlainSummarises(history, i, IdSet(ids), summary);
    after := history[..i] + [summary] + Without(history[i..], IdSet(ids));
  }

  lemma RangeReplaced(rows: Rows, ids: seq<string>, summary: Message)
    requires Valid(rows) && Named(rows, ids) && summary.id !in rows
    ensures exists after :: Summarised(Load(rows), IdSet(ids), summary, after)
              && Leads(rows, ReplaceRange(ids, summary), after, Retired(rows) + IdSet(ids))
  {
    NamedIsReplaceable(rows, ids);
    NewIsNowhere(rows, summary.id);
    var after := PlainReplaces(Load(rows), Retired(rows), ids, summary);
    PlainLeads(rows, ReplaceRange(ids, summary), after, Retired(rows) + IdSet(ids));
  }

  lemma RangeRefused(rows: Rows, ids: seq<string>, summary: Message)
    requires Valid(rows) && !(Named(rows, ids) && summary.id !in rows)
    ensures Refused(rows, ReplaceRange(ids, summary), if Named(rows, ids) then DuplicateKey else RangeChanged)
  {
    NamedIsReplaceable(rows, ids);
    ContainsIffActive(rows, Load(rows), summary.id);
    PlainRefuses(rows, ReplaceRange(ids, summary), if Named(rows, ids) then DuplicateKey else RangeChanged);
  }

  /** A range is replaced exactly when it names some messages, each once and each in sight, and the summary
      is new; the range is looked at first. */
  lemma SummaryStandsFirst(rows: Rows, ids: seq<string>, summary: Message)
    requires Valid(rows)
    ensures if Named(rows, ids) && summary.id !in rows then
              exists after :: Summarised(Load(rows), IdSet(ids), summary, after)
                && Leads(rows, ReplaceRange(ids, summary), after, Retired(rows) + IdSet(ids))
            else Refused(rows, ReplaceRange(ids, summary), if Named(rows, ids) then DuplicateKey else RangeChanged)
  {
    if Named(rows, ids) && summary.id !in rows {
      RangeReplaced(rows, ids, summary);
    } else {
      RangeRefused(rows, ids, summary);
    }
  }
}
