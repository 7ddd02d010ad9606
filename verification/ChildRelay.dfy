// The relay of blocking requests of child conversations to their parents
// (packages/core/src/agent-runtime/child-blocking.ts). Polls and answers are serialised against each
// other; retiring a child is not. One stretch between two `await`s is one step.
module ChildRelay {
  import opened Prelude
  import opened UriComponent

  // ---- identities ------------------------------------------------------------------------------

  /** The identity under which a parent sees a request of a child. */
  function ScopedId(child: string, request: string): string {
    Encode(child) + ":" + Encode(request)
  }

  function FirstColon(text: string): nat {
    if text == [] || text[0] == ':' then 0 else 1 + FirstColon(text[1..])
  }

  lemma {:induction false} FirstColonBehind(a: string, b: string)
    requires ':' !in a
    ensures FirstColon(a + ":" + b) == |a|
  {
    var text := a + ":" + b;
    if a != [] {
      assert text[0] == a[0] && a[0] in a;
      assert text[1..] == a[1..] + ":" + b;
      FirstColonBehind(a[1..], b);
    }
  }

  lemma SameHead(a: string, b: string, c: string, d: string)
    requires ':' !in a && ':' !in c && a + ":" + b == c + ":" + d
    ensures a == c && b == d
  {
    FirstColonBehind(a, b);
    FirstColonBehind(c, d);
    var text := a + ":" + b;
    assert a == text[..|a|] && c == text[..|c|];
    assert b == text[|a| + 1..] && d == text[|c| + 1..];
  }

  /** No two requests of whatever children share an identity. */
  lemma ScopedIdsDiffer(child: string, request: string, other: string, another: string)
    requires ScopedId(child, request) == ScopedId(other, another)
    ensures child == other && request == another
  {
    NoColon(child);
    NoColon(other);
    SameHead(Encode(child), Encode(request), Encode(other), Encode(another));
    DecodeUndoes(child);
    DecodeUndoes(request);
    DecodeUndoes(other);
    DecodeUndoes(another);
  }

  // ---- the relay ---------------------------------------------------------------------------------

  datatype Kind = Approval | Input

  /** A blocking request as a child reports it. */
  datatype Source = Source(request: string, kind: Kind, batch: Option<string>)

  /** And as it is shown to the parent. */
  datatype Entry = Entry(parent: string, child: string, request: string, kind: Kind, batch: string)

  datatype Record = Presented(id: string) | Resolved(id: string)

  /** Where the serialised operation is, if one is under way. */
  datatype Current =
    | Idle
    | Polling(parent: string)
    | Presenting(parent: string, child: string, todo: seq<Source>)
    | Answering(id: string, entry: Entry)
    | Recording(id: string)

  /** `log` is what the store has recorded for the parents, `routed` the answers a child has taken. */
  datatype State = State(
    presented: map<string, Entry>,
    retired: set<string>,
    current: Current,
    log: seq<Record>,
    routed: seq<string>
  )

  datatype Action =
    | BeginPoll(parent: string)
    | Report(child: string, sources: seq<Source>)
    | Appended(ok: bool)
    | EndPoll
    | BeginAnswer(parent: string, id: string, kind: Kind, active: bool)
    | Answered(ok: bool)
    | Retire(child: string)

  function Fresh(s: State, child: string, sources: seq<Source>): seq<Source> {
    if sources == [] then [] else
      var last := sources[|sources| - 1];
      var id := ScopedId(child, last.request);
      Fresh(s, child, sources[..|sources| - 1]) + if id in s.presented || id in s.retired then [] else [last]
  }

  function EntryOf(parent: string, child: string, source: Source): Entry {
    var batch := if source.batch.Some? && source.batch.value != [] then child + ":" + source.batch.value
                 else ScopedId(child, source.request);
    Entry(parent, child, source.request, source.kind, batch)
  }

  /** The append of a presentation has come back: published only if it succeeded. */
  function DoPresented(s: State, ok: bool): State
    requires s.current.Presenting? && s.current.todo != []
  {
    var source, rest := s.current.todo[0], s.current.todo[1..];
    var id := ScopedId(s.current.child, source.request);
    if !ok then State(s.presented, s.retired, Idle, s.log, s.routed)
    else
      State(s.presented[id := EntryOf(s.current.parent, s.current.child, source)], s.retired,
            if rest == [] then Polling(s.current.parent) else Presenting(s.current.parent, s.current.child, rest),
            s.log + [Presented(id)], s.routed)
  }

  /** An answer is refused unless the request is pending with this parent, its child is active and
      the kinds agree. */
  predicate Answerable(s: State, parent: string, id: string, kind: Kind, active: bool) {
    id in s.presented && s.presented[id].parent == parent && active && s.presented[id].kind == kind
  }

  /** The child has taken the answer, or failed to; then nothing changes. */
  function DoAnswered(s: State, ok: bool): State
    requires s.current.Answering?
  {
    var id := s.current.id;
    if !ok then State(s.presented, s.retired, Idle, s.log, s.routed)
    else State(s.presented - {id}, s.retired + {id}, Recording(id), s.log, s.routed + [id])
  }

  /** The append of a resolution has come back; the answer stands either way. */
  function DoRecorded(s: State, ok: bool): State
    requires s.current.Recording?
  {
    State(s.presented, s.retired, Idle, if ok then s.log + [Resolved(s.current.id)] else s.log, s.routed)
  }

  function Of(presented: map<string, Entry>, child: string): set<string> {
    set id | id in presented && presented[id].child == child
  }

  function DoRetire(s: State, child: string): State {
    var ids := Of(s.presented, child);
    State(s.presented - ids, s.retired + ids, s.current, s.log, s.routed)
  }

  function Next(s: State, action: Action): State {
    match action
    case BeginPoll(parent) =>
      if s.current == Idle then State(s.presented, s.retired, Polling(parent), s.log, s.routed) else s
    case Report(child, sources) =>
      if !s.current.Polling? || Fresh(s, child, sources) == [] then s
      else
        State(s.presented, s.retired, Presenting(s.current.parent, child, Fresh(s, child, sources)), s.log, s.routed)
    case Appended(ok) =>
      if s.current.Presenting? && s.current.todo != [] then DoPresented(s, ok)
      else if s.current.Recording? then DoRecorded(s, ok)
      else s
    case EndPoll => if s.current.Polling? then State(s.presented, s.retired, Idle, s.log, s.routed) else s
    case BeginAnswer(parent, id, kind, active) =>
      if s.current == Idle && Answerable(s, parent, id, kind, active)
      then State(s.presented, s.retired, Answering(id, s.presented[id]), s.log, s.routed)
      else s
    case Answered(ok) => if s.current.Answering? then DoAnswered(s, ok) else s
    case Retire(child) => DoRetire(s, child)
  }

  const INIT := State(map[], {}, Idle, [], [])

  function Run(actions: seq<Action>): State {
    if actions == [] then INIT else Next(Run(actions[..|actions| - 1]), actions[|actions| - 1])
  }

  // ---- what always holds -------------------------------------------------------------------------

  function Ids(child: string, sources: seq<Source>): (ids: seq<string>)
    ensures |ids| == |sources|
    ensures forall i | 0 <= i < |sources| :: ids[i] == ScopedId(child, sources[i].request)
  {
    seq(|sources|, i requires 0 <= i < |sources| => ScopedId(child, sources[i].request))
  }

  /** The identities that are being presented. */
  function Todo(s: State): seq<string> {
    if s.current.Presenting? then Ids(s.current.child, s.current.todo) else []
  }

  ghost predicate Distinct(ids: seq<string>) {
    forall i, j | 0 <= i < j < |ids| :: ids[i] != ids[j]
  }

  function Presentations(log: seq<Record>): seq<string> {
    if log == [] then [] else
      Presentations(log[..|log| - 1]) + if log[|log| - 1].Presented? then [log[|log| - 1].id] else []
  }

  function Resolutions(log: seq<Record>): seq<string> {
    if log == [] then [] else
      Resolutions(log[..|log| - 1]) + if log[|log| - 1].Resolved? then [log[|log| - 1].id] else []
  }

  /** Every pending request is known by the identity of its child and itself, and is on record. */
  ghost predicate Named(s: State) {
    && (forall id | id in s.presented ::
          id == ScopedId(s.presented[id].child, s.presented[id].request) && id in Presentations(s.log))
    && (s.current.Answering? ==> s.current.id == ScopedId(s.current.entry.child, s.current.entry.request))
  }

  /** What was answered is retired, pending no more, and was answered once. */
  ghost predicate AnsweredInv(s: State) {
    && Distinct(s.routed)
    && (forall id | id in s.routed :: id in s.retired && id !in s.presented && id !in Todo(s))
    && (s.current.Answering? ==> s.current.id !in s.routed)
  }

  /** What was recorded as resolved was answered and recorded once; what is being recorded is neither. */
  ghost predicate ResolvedInv(s: State) {
    && Distinct(Resolutions(s.log))
    && (forall id | id in Resolutions(s.log) :: id in s.routed)
    && (s.current.Answering? ==> s.current.id !in s.routed)
    && (s.current.Recording? ==> s.current.id in s.routed && s.current.id !in Resolutions(s.log))
  }

  /** When no report repeats itself: what was presented is pending or retired, what is being
      presented is neither, and nothing was presented twice. */
  ghost predicate PresentedInv(s: State) {
    && Distinct(Presentations(s.log))
    && (forall id | id in Presentations(s.log) :: id in s.presented || id in s.retired)
    && Distinct(Todo(s))
    && (forall id | id in Todo(s) :: id !in s.presented && id !in s.retired)
  }

  /** What is answered has been put on record. */
  ghost predicate AnsweringKnown(s: State) {
    && (forall id | id in s.routed :: id in Presentations(s.log))
    && (s.current.Answering? ==> s.current.id in Presentations(s.log))
  }

  lemma PresentationsNext(log: seq<Record>, record: Record)
    ensures Presentations(log + [record]) == Presentations(log) + if record.Presented? then [record.id] else []
  {
    assert (log + [record])[..|log|] == log;
  }

  lemma ResolutionsNext(log: seq<Record>, record: Record)
    ensures Resolutions(log + [record]) == Resolutions(log) + if record.Resolved? then [record.id] else []
  {
    assert (log + [record])[..|log|] == log;
  }

  lemma {:induction false} FreshIsNew(s: State, child: string, sources: seq<Source>)
    ensures forall source | source in Fresh(s, child, sources) ::
              source in sources
              && ScopedId(child, source.request) !in s.presented && ScopedId(child, source.request) !in s.retired
  {
    if sources != [] {
      var init, last := sources[..|sources| - 1], sources[|sources| - 1];
      FreshIsNew(s, child, init);
      assert sources == init + [last];
    }
  }

  lemma IdsAreOfSources(child: string, sources: seq<Source>)
    ensures forall id | id in Ids(child, sources) ::
              exists source :: source in sources && id == ScopedId(child, source.request)
  {
    forall id | id in Ids(child, sources)
      ensures exists source :: source in sources && id == ScopedId(child, source.request)
    {
      var i :| 0 <= i < |sources| && Ids(child, sources)[i] == id;
      assert sources[i] in sources;
    }
  }

  ghost predicate AllDiffer(child: string, sources: seq<Source>) {
    forall i, j | 0 <= i < j < |sources| :: ScopedId(child, sources[i].request) != ScopedId(child, sources[j].request)
  }

  lemma {:induction false} FreshIsDistinct(s: State, child: string, sources: seq<Source>)
    requires AllDiffer(child, sources)
    ensures AllDiffer(child, Fresh(s, child, sources))
  {
    if sources != [] {
      var init, last := sources[..|sources| - 1], sources[|sources| - 1];
      FreshIsDistinct(s, child, init);
      FreshIsNew(s, child, init);
      var rest := Fresh(s, child, init);
      forall i | 0 <= i < |rest| ensures ScopedId(child, rest[i].request) != ScopedId(child, last.request) {
        assert rest[i] in init;
        var j :| 0 <= j < |init| && init[j] == rest[i];
        assert sources[j] == rest[i];
      }
    }
  }

  lemma TodoAdvances(child: string, todo: seq<Source>)
    requires todo != []
    ensures Ids(child, todo) == [ScopedId(child, todo[0].request)] + Ids(child, todo[1..])
  {
  }

  lemma NamedKeeps(s: State, action: Action)
    requires Named(s)
    ensures Named(Next(s, action))
  {
    if action.Appended? && s.current.Presenting? && s.current.todo != [] && action.ok {
      PresentationsNext(s.log, Presented(ScopedId(s.current.child, s.current.todo[0].request)));
    } else if action.Appended? && s.current.Recording? && action.ok {
      PresentationsNext(s.log, Resolved(s.current.id));
    }
  }

  lemma AnsweredKeeps(s: State, action: Action)
    requires AnsweredInv(s)
    ensures AnsweredInv(Next(s, action))
  {
    if action.Report? && s.current.Polling? {
      FreshIsNew(s, action.child, action.sources);
      IdsAreOfSources(action.child, Fresh(s, action.child, action.sources));
    } else if action.Appended? && s.current.Presenting? && s.current.todo != [] {
      TodoAdvances(s.current.child, s.current.todo);
    }
  }

  lemma RecordedKeepsResolved(s: State, ok: bool)
    requires ResolvedInv(s) && s.current.Recording?
    ensures ResolvedInv(DoRecorded(s, ok))
  {
    if ok {
      ResolutionsNext(s.log, Resolved(s.current.id));
      DistinctNext(Resolutions(s.log), s.current.id);
    }
  }

  lemma PresentedKeepsResolved(s: State, ok: bool)
    requires ResolvedInv(s) && s.current.Presenting? && s.current.todo != []
    ensures ResolvedInv(DoPresented(s, ok))
  {
    ResolutionsNext(s.log, Presented(ScopedId(s.current.child, s.current.todo[0].request)));
  }

  lemma ResolvedKeeps(s: State, action: Action)
    requires AnsweredInv(s) && ResolvedInv(s)
    ensures ResolvedInv(Next(s, action))
  {
    if action.Appended? && s.current.Presenting? && s.current.todo != [] {
      PresentedKeepsResolved(s, action.ok);
    } else if action.Appended? && s.current.Recording? {
      RecordedKeepsResolved(s, action.ok);
    } else {
      assert Next(s, action).log == s.log;
    }
  }

  predicate Repeats(action: Action) {
    action.Report? &&
    exists i, j :: 0 <= i < j < |action.sources| && action.sources[i].request == action.sources[j].request
  }

  lemma ReportKeepsPresented(s: State, child: string, sources: seq<Source>)
    requires PresentedInv(s) && s.current.Polling? && !Repeats(Report(child, sources))
    ensures PresentedInv(Next(s, Report(child, sources)))
  {
    forall i, j | 0 <= i < j < |sources|
      ensures ScopedId(child, sources[i].request) != ScopedId(child, sources[j].request)
    {
      if ScopedId(child, sources[i].request) == ScopedId(child, sources[j].request) {
        ScopedIdsDiffer(child, sources[i].request, child, sources[j].request);
      }
    }
    FreshIsNew(s, child, sources);
    FreshIsDistinct(s, child, sources);
    IdsAreOfSources(child, Fresh(s, child, sources));
  }

  lemma DistinctTail(ids: seq<string>)
    requires ids != [] && Distinct(ids)
    ensures Distinct(ids[1..]) && ids[0] !in ids[1..]
  {
  }

  lemma DistinctNext(ids: seq<string>, id: string)
    requires Distinct(ids) && id !in ids
    ensures Distinct(ids + [id])
  {
  }

  lemma AppendKeepsPresented(s: State, ok: bool)
    requires PresentedInv(s) && s.current.Presenting? && s.current.todo != []
    ensures PresentedInv(DoPresented(s, ok))
  {
    var t, id := DoPresented(s, ok), ScopedId(s.current.child, s.current.todo[0].request);
    TodoAdvances(s.current.child, s.current.todo);
    assert Todo(s)[0] == id && id in Todo(s);
    if ok {
      PresentationsNext(s.log, Presented(id));
      DistinctTail(Todo(s));
      DistinctNext(Presentations(s.log), id);
      assert Todo(t) == Todo(s)[1..];
    } else {
      assert Todo(t) == [];
    }
  }

  lemma OtherKeepsPresented(s: State, t: State)
    requires PresentedInv(s) && Presentations(t.log) == Presentations(s.log) && (Todo(t) == [] || Todo(t) == Todo(s))
    requires t.presented.Keys + t.retired == s.presented.Keys + s.retired
    ensures PresentedInv(t)
  {
    forall id ensures (id in t.presented || id in t.retired) <==> (id in s.presented || id in s.retired) {
      assert id in t.presented.Keys + t.retired <==> id in s.presented.Keys + s.retired;
    }
  }

  lemma RecordedKeepsPresented(s: State, ok: bool)
    requires PresentedInv(s) && s.current.Recording?
    ensures PresentedInv(DoRecorded(s, ok))
  {
    PresentationsNext(s.log, Resolved(s.current.id));
    OtherKeepsPresented(s, DoRecorded(s, ok));
  }

  lemma PresentedKeeps(s: State, action: Action)
    requires PresentedInv(s) && !Repeats(action)
    requires AnsweringKnown(s)
    ensures PresentedInv(Next(s, action))
  {
    if action.Report? && s.current.Polling? {
      ReportKeepsPresented(s, action.child, action.sources);
    } else if action.Appended? && s.current.Presenting? && s.current.todo != [] {
      AppendKeepsPresented(s, action.ok);
    } else if action.Appended? && s.current.Recording? {
      RecordedKeepsPresented(s, action.ok);
    } else {
      OtherKeepsPresented(s, Next(s, action));
    }
  }

  lemma KnownKeeps(s: State, action: Action)
    requires Named(s) && AnsweringKnown(s)
    ensures AnsweringKnown(Next(s, action))
  {
    if action.Appended? && s.current.Presenting? && s.current.todo != [] && action.ok {
      PresentationsNext(s.log, Presented(ScopedId(s.current.child, s.current.todo[0].request)));
    } else if s.current.Recording? {
      PresentationsNext(s.log, Resolved(s.current.id));
    }
  }

  lemma {:induction false} RunKeeps(actions: seq<Action>)
    ensures Named(Run(actions)) && AnsweredInv(Run(actions)) && AnsweringKnown(Run(actions)) && ResolvedInv(Run(actions))
  {
    if actions != [] {
      var s, action := Run(actions[..|actions| - 1]), actions[|actions| - 1];
      RunKeeps(actions[..|actions| - 1]);
      NamedKeeps(s, action);
      AnsweredKeeps(s, action);
      KnownKeeps(s, action);
      ResolvedKeeps(s, action);
    }
  }

  // ---- once only ---------------------------------------------------------------------------------

  /** If no report names a request twice, each request is durably presented at most once. */
  lemma {:induction false} PresentedOnce(actions: seq<Action>)
    requires forall i | 0 <= i < |actions| :: !Repeats(actions[i])
    ensures Distinct(Presentations(Run(actions).log)) && PresentedInv(Run(actions))
  {
    if actions != [] {
      PresentedOnce(actions[..|actions| - 1]);
      RunKeeps(actions[..|actions| - 1]);
      PresentedKeeps(Run(actions[..|actions| - 1]), actions[|actions| - 1]);
    }
  }

  /** `n` appends in a row that succeed. */
  function AppendAll(s: State, n: nat): State
    decreases n
  {
    if n == 0 then s else AppendAll(Next(s, Appended(true)), n - 1)
  }

  lemma AppendLogs(s: State)
    requires s.current.Presenting? && s.current.todo != []
    ensures var t := Next(s, Appended(true));
            && Presentations(t.log) == Presentations(s.log) + [ScopedId(s.current.child, s.current.todo[0].request)]
            && t.current == if |s.current.todo| == 1 then Polling(s.current.parent)
                            else Presenting(s.current.parent, s.current.child, s.current.todo[1..])
  {
    PresentationsNext(s.log, Presented(ScopedId(s.current.child, s.current.todo[0].request)));
  }

  lemma AppendAllNext(s: State, n: nat)
    ensures AppendAll(s, n + 1) == AppendAll(Next(s, Appended(true)), n) && AppendAll(s, 0) == s
  {
  }

  lemma {:induction false} AppendAllLogs(s: State)
    requires s.current.Presenting? && s.current.todo != []
    ensures var t := AppendAll(s, |s.current.todo|);
            && Presentations(t.log) == Presentations(s.log) + Ids(s.current.child, s.current.todo)
            && t.current == Polling(s.current.parent)
    decreases |s.current.todo|
  {
    var next, n := Next(s, Appended(true)), |s.current.todo| - 1;
    AppendLogs(s);
    assert AppendAll(s, |s.current.todo|) == AppendAll(next, n) by {
      AppendAllNext(s, n);
    }
    if n == 0 {
      assert AppendAll(next, 0) == next;
      IdsOfOne(s.current.child, s.current.todo);
    } else {
      AppendAllLogs(next);
      IdsJoin(Presentations(s.log), s.current.child, s.current.todo);
    }
  }

  lemma IdsOfOne(child: string, todo: seq<Source>)
    requires |todo| == 1
    ensures Ids(child, todo) == [ScopedId(child, todo[0].request)]
  {
  }

  lemma IdsJoin(logged: seq<string>, child: string, todo: seq<Source>)
    requires todo != []
    ensures logged + [ScopedId(child, todo[0].request)] + Ids(child, todo[1..]) == logged + Ids(child, todo)
  {
    TodoAdvances(child, todo);
    Associates(logged, [ScopedId(child, todo[0].request)], Ids(child, todo[1..]));
  }

  lemma DistinctJoin(a: seq<string>, b: seq<string>)
    requires Distinct(a) && forall id | id in b :: id !in a
    ensures Distinct(a + b) <==> Distinct(b)
  {
    if Distinct(a + b) {
      forall i, j | 0 <= i < j < |b| ensures b[i] != b[j] {
        assert (a + b)[|a| + i] != (a + b)[|a| + j];
      }
    } else if i, j :| 0 <= i < j < |a + b| && (a + b)[i] == (a + b)[j] {
      assert j >= |a| && b[j - |a|] in b;
      assert b[i - |a|] == b[j - |a|];
    }
  }

  lemma IdsDistinct(child: string, sources: seq<Source>)
    ensures Distinct(Ids(child, sources)) <==> !Repeats(Report(child, sources))
  {
    if i, j :| 0 <= i < j < |sources| && sources[i].request == sources[j].request {
      assert Ids(child, sources)[i] == Ids(child, sources)[j];
    }
    if i, j :| 0 <= i < j < |sources| && Ids(child, sources)[i] == Ids(child, sources)[j] {
      ScopedIdsDiffer(child, sources[i].request, child, sources[j].request);
    }
  }

  /** The exact condition, report by report: once everything new in a report has been recorded, no
      request is on record twice if and only if the new part of the report names no request twice. */
  lemma ReportIsExact(s: State, child: string, sources: seq<Source>)
    requires PresentedInv(s) && s.current.Polling?
    ensures var unseen := Fresh(s, child, sources);
            var t := AppendAll(Next(s, Report(child, sources)), |unseen|);
            && Presentations(t.log) == Presentations(s.log) + Ids(child, unseen) && t.current == s.current
            && (Distinct(Presentations(t.log)) <==> !Repeats(Report(child, unseen)))
  {
    var unseen := Fresh(s, child, sources);
    FreshIsNew(s, child, sources);
    IdsAreOfSources(child, unseen);
    IdsDistinct(child, unseen);
    DistinctJoin(Presentations(s.log), Ids(child, unseen));
    if unseen == [] {
      assert Presentations(s.log) + Ids(child, unseen) == Presentations(s.log);
    } else {
      AppendAllLogs(Next(s, Report(child, sources)));
    }
  }

  /** A report that repeats a request has it presented twice. */
  lemma RepeatedReportPresentsTwice(parent: string, child: string, source: Source)
    ensures var id := ScopedId(child, source.request);
            Presentations(Run([BeginPoll(parent), Report(child, [source, source]), Appended(true), Appended(true)]).log)
              == [id, id]
  {
    var actions := [BeginPoll(parent), Report(child, [source, source]), Appended(true), Appended(true)];
    var id := ScopedId(child, source.request);
    assert actions[..3][..2][..1] == [BeginPoll(parent)] && actions[..3][..2][..1][..0] == [];
    assert actions[..3][..2] == actions[..2] && actions[..2][..1] == [BeginPoll(parent)];
    var first := [BeginPoll(parent)];
    assert first[..|first| - 1] == [] && Run([]) == INIT;
    var polling := Run(first);
    assert polling == Next(INIT, first[0]);
    assert polling == State(map[], {}, Polling(parent), [], []);
    assert [source, source][..1] == [source] && [source][..0] == [];
    assert Fresh(polling, child, []) == [];
    assert Fresh(polling, child, [source]) == [source];
    assert Fresh(polling, child, [source, source]) == [source, source];
    var presenting := Run(actions[..2]);
    assert presenting == Next(polling, actions[1]);
    assert presenting.current == Presenting(parent, child, [source, source]);
    var once := Run(actions[..3]);
    assert once == DoPresented(presenting, true) && once.log == [Presented(id)];
    assert Run(actions) == DoPresented(once, true);
    PresentationsNext([], Presented(id));
    PresentationsNext([Presented(id)], Presented(id));
  }

  /** An answer reaches a child at most once, and only of a request on record; what was answered is never
      pending again, and it is recorded as resolved at most once, and nothing else is. */
  lemma AnsweredOnce(actions: seq<Action>)
    ensures var s := Run(actions);
            && Distinct(s.routed)
            && (forall id | id in s.routed :: id !in s.presented && id in Presentations(s.log))
            && Distinct(Resolutions(s.log)) && forall id | id in Resolutions(s.log) :: id in s.routed
  {
    RunKeeps(actions);
  }

  /** The answer goes to the child and the request that the parent was shown. */
  lemma AnswerReachesItsRequest(actions: seq<Action>, child: string, request: string)
    requires Run(actions).current.Answering? && Run(actions).current.id == ScopedId(child, request)
    ensures Run(actions).current.entry.child == child && Run(actions).current.entry.request == request
  {
    RunKeeps(actions);
    var entry := Run(actions).current.entry;
    ScopedIdsDiffer(child, request, entry.child, entry.request);
  }

  /** Answering touches no other pending request. */
  lemma SiblingsUntouched(actions: seq<Action>, ok: bool, other: string)
    requires Run(actions).current.Answering? && other != Run(actions).current.id
    ensures var s := Run(actions); var t := Next(s, Answered(ok));
            && (other in t.presented <==> other in s.presented)
            && (other in s.presented ==> t.presented[other] == s.presented[other])
            && (other in t.retired <==> other in s.retired)
  {
  }

  // ---- the relay object ----------------------------------------------------------------------------

  class Relay {
    var presented: map<string, Entry>
    var retired: set<string>
    var current: Current
    var log: seq<Record>
    var routed: seq<string>

    ghost function Value(): State
      reads this
    {
      State(presented, retired, current, log, routed)
    }

    constructor ()
      ensures Value() == INIT
    {
      presented, retired, current, log, routed := map[], {}, Idle, [], [];
    }

    /** What a child reports, as far as it is new. */
    method TakeReport(child: string, sources: seq<Source>)
      requires current.Polling?
      modifies this`current
      ensures Value() == Next(old(Value()), Report(child, sources))
    {
      ghost var s := Value();
      var unseen: seq<Source> := [];
      for i := 0 to |sources|
        invariant unseen == Fresh(s, child, sources[..i])
      {
        assert sources[..i + 1][..i] == sources[..i];
        var id := ScopedId(child, sources[i].request);
        if id !in presented && id !in retired {
          unseen := unseen + [sources[i]];
        }
      }
      assert sources[..|sources|] == sources;
      if unseen != [] {
        current := Presenting(current.parent, child, unseen);
      }
    }

    /** The durable record of a presentation has been written, or has failed. */
    method EndPresentation(ok: bool)
      requires current.Presenting? && current.todo != []
      modifies this`presented, this`current, this`log
      ensures Value() == Next(old(Value()), Appended(ok))
    {
      if !ok {
        current := Idle;
        return;
      }
      var source, rest := current.todo[0], current.todo[1..];
      var id := ScopedId(current.child, source.request);
      log := log + [Presented(id)];
      presented := presented[id := EntryOf(current.parent, current.child, source)];
      current := if rest == [] then Polling(current.parent) else Presenting(current.parent, current.child, rest);
    }

    method BeginAnswer(parent: string, id: string, kind: Kind, active: bool) returns (accepted: bool)
      requires current == Idle
      modifies this`current
      ensures accepted <==> Answerable(old(Value()), parent, id, kind, active)
      ensures Value() == Next(old(Value()), Action.BeginAnswer(parent, id, kind, active))
    {
      accepted := false;
      if id !in presented || presented[id].parent != parent {
        return;
      }
      if !active || presented[id].kind != kind {
        return;
      }
      accepted := true;
      current := Answering(id, presented[id]);
    }

    method EndAnswer(ok: bool)
      requires current.Answering?
      modifies this`presented, this`retired, this`current, this`routed
      ensures Value() == Next(old(Value()), Answered(ok))
    {
      if !ok {
        current := Idle;
        return;
      }
      var id := current.id;
      presented := presented - {id};
      retired := retired + {id};
      routed := routed + [id];
      current := Recording(id);
    }

    /** The durable record of an answer has been written, or has failed. */
    method EndRecording(ok: bool)
      requires current.Recording?
      modifies this`current, this`log
      ensures Value() == Next(old(Value()), Appended(ok))
    {
      if ok {
        log := log + [Resolved(current.id)];
      }
      current := Idle;
    }

    method RetireChild(child: string)
      modifies this`presented, this`retired
      ensures Value() == Next(old(Value()), Retire(child))
    {
      var left := presented.Keys;
      while left != {}
        invariant left <= old(presented).Keys
        invariant presented == old(presented) - (Of(old(presented), child) - left)
        invariant retired == old(retired) + (Of(old(presented), child) - left)
        decreases left
      {
        var id :| id in left;
        if presented[id].child == child {
          presented := presented - {id};
          retired := retired + {id};
        }
        left := left - {id};
      }
    }
  }
}
