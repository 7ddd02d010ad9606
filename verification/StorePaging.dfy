// Paged reads of the Prisma store adapter (examples/agent-store-prisma/adapter.ts) and the two
// loops that follow the pages: the seed of a child (children-spawn.ts) reads an event log through
// `nextSeq`, recovery (runtime-recovery.ts) reads active runs through an identity cursor.
module StorePaging {
  import opened Prelude
  import opened KeyOrder

  // ---- the event log of a conversation --------------------------------------------------------

  datatype Draft = Draft(eventId: string, kind: string, payload: string)

  datatype Event = Event(number: int, draft: Draft)

  /** The event rows of one conversation, by sequence number. */
  type Log = map<int, Draft>

  datatype EventPage = EventPage(items: seq<Event>, nextSeq: Option<int>)

  function Earlier(): (int, int) -> bool {
    (a, b) => a < b
  }

  function Later(): (int, int) -> bool {
    (a, b) => a > b
  }

  function Seqs(events: seq<Event>): (seqs: seq<int>)
    ensures |seqs| == |events|
    ensures forall i :: 0 <= i < |events| ==> seqs[i] == events[i].number
  {
    seq(|events|, i requires 0 <= i < |events| => events[i].number)
  }

  predicate Asked(from: Option<int>, to: Option<int>, k: int) {
    (from.Some? ==> from.value <= k) && (to.Some? ==> k <= to.value)
  }

  function InRange(log: Log, from: Option<int>, to: Option<int>): set<int> {
    set k | k in log && Asked(from, to, k)
  }

  /** The events are rows of the log. */
  ghost predicate Stored(log: Log, events: seq<Event>) {
    forall i | 0 <= i < |events| :: events[i].number in log && log[events[i].number] == events[i].draft
  }

  /** A page: the first rows asked for, in order, and the number to go on from iff there are more. */
  ghost predicate IsPage(log: Log, from: Option<int>, to: Option<int>, limit: nat, page: EventPage) {
    && Stored(log, page.items)
    && ListsFirst(Seqs(page.items), InRange(log, from, to), Earlier(), limit)
    && (page.nextSeq.Some? <==>
          page.items != [] && exists k :: k in InRange(log, from, to) && k !in Seqs(page.items))
    && (page.nextSeq.Some? ==> page.nextSeq.value == page.items[|page.items| - 1].number + 1)
  }

  /** `events.list`: one row more than the limit is read to learn whether there are more. */
  method ListEvents(log: Log, from: Option<int>, to: Option<int>, limit: nat) returns (page: EventPage)
    ensures IsPage(log, from, to, limit, page)
  {
    var among := InRange(log, from, to);
    var rows := TakeFirst(among, Earlier(), limit + 1);
    forall i | 0 <= i < |rows| ensures rows[i] in log {
      assert rows[i] in rows;
      assert rows[i] in among;
    }
    var events := seq(|rows|, i requires 0 <= i < |rows| && rows[i] in log => Event(rows[i], log[rows[i]]));
    var count := if |events| < limit then |events| else limit;
    var items := events[..count];
    assert Seqs(items) == rows[..count];
    ListsFirstPrefix(rows, among, Earlier(), limit + 1, count);
    if |events| > limit && items != [] {
      assert rows[limit] in among && rows[limit] !in rows[..count];
      page := EventPage(items, Some(items[|items| - 1].number + 1));
    } else {
      if |events| <= limit {
        assert rows[..count] == rows;
      }
      page := EventPage(items, None);
    }
  }

  /** With a limit of at least one, a page without a next number has brought everything asked for. */
  lemma LastPageIsComplete(log: Log, from: Option<int>, to: Option<int>, limit: nat, page: EventPage)
    requires IsPage(log, from, to, limit, page) && page.nextSeq.None?
    ensures limit >= 1 || InRange(log, from, to) == {} <==> Lists(Seqs(page.items), InRange(log, from, to), Earlier())
  {
    var among, seqs := InRange(log, from, to), Seqs(page.items);
    if k :| k in among && k !in seqs {
      assert page.items == [];
      assert limit == 0;
      assert !Lists(seqs, among, Earlier());
    } else if limit == 0 {
      assert seqs == [];
      assert forall k :: k in among ==> k in seqs;
      assert among == {};
    }
  }

  /** The next page begins right behind the last event of a page that is not the last. */
  lemma PagesJoin(log: Log, to: Option<int>, cursor: int, limit: nat, page: EventPage)
    requires IsPage(log, Some(cursor), to, limit, page) && page.nextSeq.Some?
    ensures cursor < page.nextSeq.value
    ensures forall k :: k in Seqs(page.items) <==> k in InRange(log, Some(cursor), to) && k < page.nextSeq.value
    ensures InRange(log, Some(page.nextSeq.value), to) < InRange(log, Some(cursor), to)
  {
    var seqs, among := Seqs(page.items), InRange(log, Some(cursor), to);
    var last := seqs[|seqs| - 1];
    assert last in seqs && last in among;
    forall k | k in seqs ensures k <= last {
      var i :| 0 <= i < |seqs| && seqs[i] == k;
      assert i < |seqs| - 1 ==> Earlier()(seqs[i], last);
    }
    forall k | k in among && k < page.nextSeq.value ensures k in seqs {
      assert k !in seqs ==> Earlier()(last, k);
    }
    assert last !in InRange(log, Some(page.nextSeq.value), to);
  }

  const SEED_PAGE: nat := 1000

  /** `readSeedEvents`: exactly the events numbered from 1 up to the seed point, once, in order. */
  method ReadSeedEvents(log: Log, upto: Option<int>) returns (events: seq<Event>)
    ensures Stored(log, events)
    ensures Lists(Seqs(events), InRange(log, Some(1), upto), Earlier())
  {
    events := ReadPages(log, upto, SEED_PAGE);
  }

  /** Its loop, for pages of any size. */
  method ReadPages(log: Log, upto: Option<int>, limit: nat) returns (events: seq<Event>)
    requires limit >= 1
    ensures Stored(log, events)
    ensures Lists(Seqs(events), InRange(log, Some(1), upto), Earlier())
  {
    events := [];
    var cursor, more := 1, true;
    while more
      invariant Stored(log, events) && Ascending(Seqs(events), Earlier())
      invariant more ==> 1 <= cursor
      invariant forall k ::
                  k in Seqs(events) <==> k in InRange(log, Some(1), upto) && (more ==> k < cursor)
      decreases more, InRange(log, Some(cursor), upto)
    {
      var page := ListEvents(log, Some(cursor), upto, limit);
      ghost var before := events;
      events := events + page.items;
      PageAppends(log, upto, cursor, limit, before, page);
      if page.nextSeq.None? {
        more := false;
      } else {
        PagesJoin(log, upto, cursor, limit, page);
        cursor := page.nextSeq.value;
      }
    }
  }

  /** Appending a page to what came before the cursor keeps the order and adds the page's events. */
  lemma PageAppends(log: Log, upto: Option<int>, cursor: int, limit: nat, before: seq<Event>, page: EventPage)
    requires 1 <= cursor && 1 <= limit && IsPage(log, Some(cursor), upto, limit, page)
    requires Ascending(Seqs(before), Earlier())
    requires forall k :: k in Seqs(before) <==> k in InRange(log, Some(1), upto) && k < cursor
    ensures Ascending(Seqs(before + page.items), Earlier())
    ensures forall k :: k in Seqs(before + page.items) <==> k in Seqs(before) || k in Seqs(page.items)
    ensures page.nextSeq.None? ==>
              forall k :: k in Seqs(before + page.items) <==> k in InRange(log, Some(1), upto)
  {
    var head, tail := Seqs(before), Seqs(page.items);
    assert Seqs(before + page.items) == head + tail;
    forall i, j | 0 <= i < j < |head + tail| ensures Earlier()((head + tail)[i], (head + tail)[j]) {
      if i < |head| <= j {
        assert head[i] in head && tail[j - |head|] in tail;
      }
    }
    if page.nextSeq.None? {
      LastPageIsComplete(log, Some(cursor), upto, limit, page);
    }
  }

  /** A log that was only ever appended to holds the events numbered 1 to n, without a gap. */
  ghost predicate Gapless(log: Log, drafts: seq<Draft>) {
    forall k :: (k in log <==> 1 <= k <= |drafts|) && (k in log ==> log[k] == drafts[k - 1])
  }

  /** From such a log the child is seeded with exactly the first events. */
  lemma SeedIsPrefix(log: Log, drafts: seq<Draft>, upto: nat, events: seq<Event>)
    requires Gapless(log, drafts) && Stored(log, events)
    requires Lists(Seqs(events), InRange(log, Some(1), Some(upto)), Earlier())
    ensures events == seq(if upto < |drafts| then upto else |drafts|, i requires 0 <= i < |drafts| => Event(i + 1, drafts[i]))
  {
    var n := if upto < |drafts| then upto else |drafts|;
    var counted := seq(n, i => i + 1);
    forall k | k in InRange(log, Some(1), Some(upto)) ensures k in counted {
      assert counted[k - 1] == k;
    }
    ListsUnique(Seqs(events), counted, InRange(log, Some(1), Some(upto)), Earlier());
    forall i | 0 <= i < n ensures events[i] == Event(i + 1, drafts[i]) {
      assert Seqs(events)[i] == counted[i];
    }
  }

  class EventStore {
    var logs: map<string, Log>
    /** Everything appended to each conversation, in order. */
    ghost var appended: map<string, seq<Draft>>

    ghost predicate Valid()
      reads this
    {
      logs.Keys == appended.Keys && forall c | c in logs :: Gapless(logs[c], appended[c])
    }

    ghost function Appended(conversation: string): seq<Draft>
      reads this
    {
      if conversation in appended then appended[conversation] else []
    }

    constructor ()
      ensures Valid() && appended == map[]
    {
      logs, appended := map[], map[];
    }

    /** `events.append`: the number after the highest one stored, which is the count of events. */
    method Append(conversation: string, draft: Draft) returns (event: Event)
      requires Valid()
      modifies this
      ensures Valid()
      ensures appended == old(appended)[conversation := old(Appended(conversation)) + [draft]]
      ensures event == Event(|Appended(conversation)|, draft)
    {
      var log := if conversation in logs then logs[conversation] else map[];
      var last := Highest(log);
      event := Event((if last.Some? then last.value else 0) + 1, draft);
      ghost var drafts := Appended(conversation);
      assert event.number == |drafts| + 1 by {
        if drafts != [] {
          assert |drafts| in log;
        }
      }
      logs := logs[conversation := log[event.number := draft]];
      appended := appended[conversation := drafts + [draft]];
    }

    static method Highest(log: Log) returns (highest: Option<int>)
      ensures highest.None? <==> log == map[]
      ensures highest.Some? ==> highest.value in log && forall k | k in log :: k <= highest.value
    {
      if log.Keys == {} {
        highest := None;
      } else {
        var greatest := Least(log.Keys, Later());
        highest := Some(greatest);
      }
    }
  }

  // ---- active runs of every conversation ------------------------------------------------------

  datatype RunState =
    Queued | Running | InterruptRequested | Completed | Interrupted | Superseded | Failed | Cancelled | Abandoned

  datatype RunKey = RunKey(conversationId: string, runId: string)

  type Runs = map<RunKey, RunState>

  datatype RunPage = RunPage(items: seq<RunKey>, nextCursor: Option<RunKey>)

  datatype ScanError = InvalidCursor

  function ActiveRuns(runs: Runs): set<RunKey> {
    set key | key in runs && runs[key] in {Queued, Running, InterruptRequested}
  }

  /** Active are exactly the runs that have not come to an end. */
  lemma ActiveIsUnsettled(runs: Runs, key: RunKey)
    ensures key in ActiveRuns(runs) <==>
              key in runs && match runs[key]
                             case Completed => false
                             case Interrupted => false
                             case Superseded => false
                             case Failed => false
                             case Cancelled => false
                             case Abandoned => false
                             case _ => true
  {
  }

  ghost predicate Injective(encode: string -> string) {
    forall a, b :: encode(a) == encode(b) ==> a == b
  }

  /** The order of the database: by encoded conversation, then by encoded run. */
  function ByStorageKey(encode: string -> string, collates: (string, string) -> bool): (RunKey, RunKey) -> bool {
    (a: RunKey, b: RunKey) =>
      collates(encode(a.conversationId), encode(b.conversationId))
      || (encode(a.conversationId) == encode(b.conversationId) && collates(encode(a.runId), encode(b.runId)))
  }

  lemma StorageOrderIsTotal(encode: string -> string, collates: (string, string) -> bool)
    requires Injective(encode) && StrictTotal(collates)
    ensures StrictTotal(ByStorageKey(encode, collates))
  {
    var less := ByStorageKey(encode, collates);
    forall a: RunKey ensures !less(a, a) {
      assert !collates(encode(a.conversationId), encode(a.conversationId));
      assert !collates(encode(a.runId), encode(a.runId));
    }
    forall a: RunKey, b: RunKey, c: RunKey | less(a, b) && less(b, c) ensures less(a, c) {
      var x, y, z := encode(a.conversationId), encode(b.conversationId), encode(c.conversationId);
      var u, v, w := encode(a.runId), encode(b.runId), encode(c.runId);
      assert collates(x, y) || (x == y && collates(u, v));
      assert collates(y, z) || (y == z && collates(v, w));
      assert collates(x, z) || (x == z && collates(u, w));
    }
    forall a: RunKey, b: RunKey ensures less(a, b) || less(b, a) || a == b {
      if encode(a.conversationId) == encode(b.conversationId) && encode(a.runId) == encode(b.runId) {
        assert a.conversationId == b.conversationId && a.runId == b.runId;
      }
    }
  }

  /** The runs of a conversation stand together. */
  lemma ConversationsStandTogether(encode: string -> string, collates: (string, string) -> bool,
                                   a: RunKey, b: RunKey, c: RunKey)
    requires Injective(encode) && StrictTotal(collates) && a.conversationId == c.conversationId
    requires var less := ByStorageKey(encode, collates); less(a, b) && less(b, c)
    ensures b.conversationId == a.conversationId && collates(encode(a.runId), encode(c.runId))
  {
    var x, y := encode(a.conversationId), encode(b.conversationId);
    assert collates(x, y) && collates(y, x) ==> collates(x, x);
    assert !collates(x, x);
  }

  /** A cursor parses unless one of its two identities is empty. */
  predicate CursorParses(cursor: RunKey) {
    cursor.conversationId != "" && cursor.runId != ""
  }

  ghost function Candidates(runs: Runs, less: (RunKey, RunKey) -> bool, cursor: Option<RunKey>): set<RunKey> {
    if cursor.Some? then Beyond(ActiveRuns(runs), less, cursor.value) else ActiveRuns(runs)
  }

  method ScanRecoverable(runs: Runs, less: (RunKey, RunKey) -> bool, cursor: Option<RunKey>, limit: nat)
    returns (page: Result<RunPage, ScanError>)
    requires StrictTotal(less)
    ensures page.Failure? <==> cursor.Some? && !CursorParses(cursor.value)
    ensures page.Success? ==> ListsFirst(page.value.items, Candidates(runs, less, cursor), less, limit)
    ensures page.Success? ==>
              (page.value.nextCursor.Some? <==>
                 page.value.items != []
                 && exists key :: key in Candidates(runs, less, cursor) && key !in page.value.items)
    ensures page.Success? && page.value.nextCursor.Some? ==>
              page.value.nextCursor.value == page.value.items[|page.value.items| - 1]
  {
    if cursor.Some? && !CursorParses(cursor.value) {
      return Failure(InvalidCursor);
    }
    var active := ActiveRuns(runs);
    var among := if cursor.Some? then Beyond(active, less, cursor.value) else active;
    var rows := TakeFirst(among, less, limit + 1);
    var hasMore := |rows| > limit;
    var count := if hasMore then limit else |rows|;
    var items := rows[..count];
    ListsFirstPrefix(rows, among, less, limit + 1, count);
    if hasMore && items != [] {
      assert rows[limit] in among && rows[limit] !in items by {
        assert rows[limit] in rows;
        assert forall i | 0 <= i < limit :: less(rows[i], rows[limit]);
      }
      page := Success(RunPage(items, Some(items[|items| - 1])));
    } else {
      assert !hasMore ==> items == rows;
      page := Success(RunPage(items, None));
    }
  }

  /** `collectRecoverable`, with the bound on the next page shrinking to what may still be collected:
      the first `maxRuns` active runs in key order, each once, however they fall on pages. `stopped`
      says whether an abort signal or a closed gate is seen once so many pages have been read; what has
      been collected by then is still the first runs in key order. */
  method CollectRecoverable(runs: Runs, less: (RunKey, RunKey) -> bool, pageSize: nat, maxRuns: nat, stopped: nat -> bool)
    returns (recoverable: Result<seq<RunKey>, ScanError>)
    requires StrictTotal(less) && pageSize >= 1
    ensures recoverable.Success? ==>
              |recoverable.value| <= maxRuns
              && ListsFirst(recoverable.value, ActiveRuns(runs), less, |recoverable.value|)
    ensures recoverable.Success? && (forall pages :: !stopped(pages)) ==>
              ListsFirst(recoverable.value, ActiveRuns(runs), less, maxRuns)
    ensures (forall key | key in ActiveRuns(runs) :: CursorParses(key)) ==> recoverable.Success?
  {
    var found: seq<RunKey> := [];
    var cursor: Option<RunKey> := None;
    var pages := 0;
    ghost var active := ActiveRuns(runs);
    while |found| < maxRuns && !stopped(pages)
      invariant ListsFirst(found, active, less, |found|) && |found| <= maxRuns
      invariant cursor == if found == [] then None else Some(found[|found| - 1])
      decreases maxRuns - |found|
    {
      var limit := if pageSize < maxRuns - |found| then pageSize else maxRuns - |found|;
      var page := ScanRecoverable(runs, less, cursor, limit);
      if page.Failure? {
        assert found[|found| - 1] in found;
        return Failure(page.reason);
      }
      var items := page.value.items;
      CollectJoins(runs, less, found, items, limit);
      found := found + items;
      cursor := page.value.nextCursor;
      pages := pages + 1;
      if cursor.None? || |items| == 0 {
        return Success(found);
      }
    }
    recoverable := Success(found);
  }

  lemma CollectJoins(runs: Runs, less: (RunKey, RunKey) -> bool, found: seq<RunKey>, items: seq<RunKey>, limit: nat)
    requires StrictTotal(less) && ListsFirst(found, ActiveRuns(runs), less, |found|)
    requires ListsFirst(items, Candidates(runs, less, if found == [] then None else Some(found[|found| - 1])), less, limit)
    ensures ListsFirst(found + items, ActiveRuns(runs), less, |found| + limit)
  {
    if found == [] {
      assert found + items == items;
    } else {
      ListsFirstJoin(found, items, ActiveRuns(runs), less, |found|, limit);
    }
  }
}
