// What the relay of ChildRelay does when nothing comes in between: a whole poll, a whole answer, the end
// of a child (packages/core/src/agent-runtime/child-blocking.ts).
module RelayLaws {
  import opened Prelude
  import opened ChildRelay

  /** What a parent is shown of a request of a child; the batch is the child's own, if it names one. */
  predicate Shows(parent: string, child: string, source: Source, entry: Entry) {
    && entry.parent == parent && entry.child == child && entry.request == source.request && entry.kind == source.kind
    && entry.batch == (match source.batch
                       case Some(batch) => if batch == "" then ScopedId(child, source.request) else child + ":" + batch
                       case None => ScopedId(child, source.request))
  }

  predicate Reports(child: string, sources: seq<Source>, id: string) {
    exists i :: 0 <= i < |sources| && ScopedId(child, sources[i].request) == id
  }

  ghost predicate ShownAs(parent: string, child: string, sources: seq<Source>, id: string, entry: Entry) {
    exists i :: 0 <= i < |sources| && ScopedId(child, sources[i].request) == id && Shows(parent, child, sources[i], entry)
  }

  /** What was pending stays as it is; of the reported requests, all that are new are pending as well. */
  ghost predicate Shown(before: State, after: State, parent: string, child: string, sources: seq<Source>) {
    && after.retired == before.retired && after.routed == before.routed
    && (forall id :: id in after.presented <==>
          id in before.presented || (id !in before.retired && Reports(child, sources, id)))
    && (forall id | id in before.presented :: after.presented[id] == before.presented[id])
    && forall id | id in after.presented && id !in before.presented ::
         ShownAs(parent, child, sources, id, after.presented[id])
  }

  /** What is new in a report, in its order. */
  lemma {:induction false} FreshPicks(s: State, child: string, sources: seq<Source>) returns (at: seq<nat>)
    ensures |at| == |Fresh(s, child, sources)|
    ensures forall k | 0 <= k < |at| :: at[k] < |sources| && Fresh(s, child, sources)[k] == sources[at[k]]
    ensures forall k, l | 0 <= k < l < |at| :: at[k] < at[l]
    ensures forall i: nat | i < |sources| ::
              i in at <==> ScopedId(child, sources[i].request) !in s.presented.Keys + s.retired
  {
    if sources == [] {
      at := [];
    } else {
      var init, n := sources[..|sources| - 1], |sources| - 1;
      at := FreshPicks(s, child, init);
      var unseen := Fresh(s, child, init);
      assert sources == init + [sources[n]];
      if ScopedId(child, sources[n].request) !in s.presented.Keys + s.retired {
        assert Fresh(s, child, sources) == unseen + [sources[n]];
        at := at + [n];
      } else {
        assert Fresh(s, child, sources) == unseen;
      }
    }
  }

  /** Appending what is left to present shows all of it. */
  ghost predicate AllShown(s: State, t: State) {
    s.current.Presenting? &&
    var child, todo := s.current.child, s.current.todo;
    && t.current == Polling(s.current.parent) && t.retired == s.retired && t.routed == s.routed
    && (forall id :: id in t.presented <==> id in s.presented || Reports(child, todo, id))
    && (forall id | id in s.presented && !Reports(child, todo, id) :: t.presented[id] == s.presented[id])
    && forall id | Reports(child, todo, id) ::
         id in t.presented && ShownAs(s.current.parent, child, todo, id, t.presented[id])
  }

  lemma OneIsPresented(s: State)
    requires s.current.Presenting? && |s.current.todo| == 1
    ensures AllShown(s, Next(s, Appended(true)))
  {
    var source := s.current.todo[0];
    var t, id := Next(s, Appended(true)), ScopedId(s.current.child, source.request);
    assert forall other :: Reports(s.current.child, s.current.todo, other) <==> other == id;
    assert Shows(s.current.parent, s.current.child, source, t.presented[id]);
  }

  lemma ReportsNext(child: string, sources: seq<Source>, id: string)
    requires sources != []
    ensures Reports(child, sources, id) <==>
              ScopedId(child, sources[0].request) == id || Reports(child, sources[1..], id)
  {
    if i :| 1 <= i < |sources| && ScopedId(child, sources[i].request) == id {
      assert sources[1..][i - 1] == sources[i];
    }
    if i :| 0 <= i < |sources[1..]| && ScopedId(child, sources[1..][i].request) == id {
      assert sources[i + 1] == sources[1..][i];
    }
  }

  lemma ShownNext(parent: string, child: string, sources: seq<Source>, id: string, entry: Entry)
    requires sources != [] && ShownAs(parent, child, sources[1..], id, entry)
    ensures ShownAs(parent, child, sources, id, entry)
  {
    var i :| 0 <= i < |sources[1..]| && ScopedId(child, sources[1..][i].request) == id
             && Shows(parent, child, sources[1..][i], entry);
    assert sources[i + 1] == sources[1..][i];
  }

  lemma MoreArePresented(s: State, next: State, t: State)
    requires s.current.Presenting? && |s.current.todo| > 1
    requires next == Next(s, Appended(true)) && AllShown(next, t)
    ensures AllShown(s, t)
  {
    var parent, child, todo := s.current.parent, s.current.child, s.current.todo;
    var first := ScopedId(child, todo[0].request);
    assert Shows(parent, child, todo[0], next.presented[first]);
    forall id ensures Reports(child, todo, id) <==> first == id || Reports(child, todo[1..], id) {
      ReportsNext(child, todo, id);
    }
    forall id | Reports(child, todo, id) ensures id in t.presented && ShownAs(parent, child, todo, id, t.presented[id]) {
      if Reports(child, todo[1..], id) {
        ShownNext(parent, child, todo, id, t.presented[id]);
      }
    }
  }

  lemma {:induction false} AllArePresented(s: State)
    requires s.current.Presenting? && s.current.todo != []
    ensures AllShown(s, AppendAll(s, |s.current.todo|))
    decreases |s.current.todo|
  {
    var next, n := Next(s, Appended(true)), |s.current.todo| - 1;
    assert AppendAll(s, |s.current.todo|) == AppendAll(next, n) by {
      AppendAllNext(s, n);
    }
    if n == 0 {
      OneIsPresented(s);
      assert AppendAll(next, 0) == next;
    } else {
      AllArePresented(next);
      MoreArePresented(s, next, AppendAll(next, n));
    }
  }

  lemma FreshReports(s: State, child: string, sources: seq<Source>, id: string)
    ensures Reports(child, Fresh(s, child, sources), id) <==>
              Reports(child, sources, id) && id !in s.presented && id !in s.retired
  {
    var unseen := Fresh(s, child, sources);
    var at := FreshPicks(s, child, sources);
    if k :| 0 <= k < |unseen| && ScopedId(child, unseen[k].request) == id {
      assert at[k] in at;
    }
    if i :| 0 <= i < |sources| && ScopedId(child, sources[i].request) == id && id !in s.presented && id !in s.retired {
      assert i in at;
      var k :| 0 <= k < |at| && at[k] == i;
      assert ScopedId(child, unseen[k].request) == id;
    }
  }

  lemma FreshShows(s: State, parent: string, child: string, sources: seq<Source>, id: string, entry: Entry)
    requires ShownAs(parent, child, Fresh(s, child, sources), id, entry)
    ensures ShownAs(parent, child, sources, id, entry)
  {
    var unseen := Fresh(s, child, sources);
    var at := FreshPicks(s, child, sources);
    var k :| 0 <= k < |unseen| && ScopedId(child, unseen[k].request) == id && Shows(parent, child, unseen[k], entry);
    assert sources[at[k]] == unseen[k];
  }

  /** A report, and as many appends as it brings new requests. */
  lemma ReportIsShown(s: State, child: string, sources: seq<Source>)
    requires s.current.Polling?
    ensures var t := AppendAll(Next(s, Report(child, sources)), |Fresh(s, child, sources)|);
            t.current == s.current && Shown(s, t, s.current.parent, child, sources)
  {
    var unseen, reported := Fresh(s, child, sources), Next(s, Report(child, sources));
    forall id ensures Reports(child, unseen, id) <==> Reports(child, sources, id) && id !in s.presented && id !in s.retired {
      FreshReports(s, child, sources, id);
    }
    if unseen == [] {
      forall id ensures !Reports(child, unseen, id) {
      }
      assert AppendAll(reported, 0) == s;
    } else {
      var t := AppendAll(reported, |unseen|);
      AllArePresented(reported);
      forall id | id in t.presented && id !in s.presented
        ensures ShownAs(s.current.parent, child, sources, id, t.presented[id])
      {
        FreshShows(s, s.current.parent, child, sources, id, t.presented[id]);
      }
    }
  }

  /** A poll of one child by its parent, undisturbed: everything it reports is pending then, but for what
      has been retired, and nothing else has changed. */
  lemma PollShowsReport(s: State, parent: string, child: string, sources: seq<Source>)
    requires s.current == Idle
    ensures var polling := Next(s, BeginPoll(parent));
            var t := Next(AppendAll(Next(polling, Report(child, sources)), |Fresh(polling, child, sources)|), EndPoll);
            t.current == Idle && Shown(s, t, parent, child, sources)
  {
    ReportIsShown(Next(s, BeginPoll(parent)), child, sources);
  }

  /** An append that fails ends the poll: what was shown by then stays, the request is not shown. */
  lemma FailedAppendShowsNothing(s: State)
    requires s.current.Presenting? && s.current.todo != []
    ensures var t := Next(s, Appended(false));
            t.current == Idle && t.presented == s.presented && t.retired == s.retired && t.log == s.log
            && t.routed == s.routed
  {
  }

  /** An answer, undisturbed. It is refused unless the request is pending with this parent, its child is
      active and the kinds agree. Once the child has taken it the request, and no other, is no longer
      pending but retired; should the child fail to, it is as if nothing had been answered. */
  lemma AnswerIsRouted(s: State, parent: string, id: string, kind: Kind, active: bool, recorded: bool)
    requires s.current == Idle
    ensures var asked := Next(s, BeginAnswer(parent, id, kind, active));
            if id in s.presented && s.presented[id].parent == parent && active && s.presented[id].kind == kind then
              && Next(asked, Answered(false)) == s
              && var t := Next(Next(asked, Answered(true)), Appended(recorded));
                 && t.current == Idle && t.routed == s.routed + [id] && t.retired == s.retired + {id}
                 && t.log == (if recorded then s.log + [Resolved(id)] else s.log)
                 && (forall other :: other in t.presented <==> other in s.presented && other != id)
                 && forall other | other in t.presented :: t.presented[other] == s.presented[other]
            else asked == s
  {
  }

  /** The end of a child: exactly its requests go, whatever is under way. */
  lemma RetiringIsExact(s: State, child: string)
    ensures var t := Next(s, Retire(child));
            && t.current == s.current && t.log == s.log && t.routed == s.routed
            && (forall id :: id in t.presented <==> id in s.presented && s.presented[id].child != child)
            && (forall id | id in t.presented :: t.presented[id] == s.presented[id])
            && forall id :: id in t.retired <==> id in s.retired || (id in s.presented && s.presented[id].child == child)
  {
  }

  /** While no report names a request twice, nothing retired is pending or comes to be. */
  lemma {:induction false} RetiredStaysAway(actions: seq<Action>)
    requires forall i | 0 <= i < |actions| :: !Repeats(actions[i])
    ensures var s := Run(actions); s.presented.Keys !! s.retired
  {
    if actions != [] {
      var earlier, action := actions[..|actions| - 1], actions[|actions| - 1];
      var s := Run(earlier);
      RetiredStaysAway(earlier);
      PresentedOnce(earlier);
      if action.Appended? && s.current.Presenting? && s.current.todo != [] {
        TodoAdvances(s.current.child, s.current.todo);
        assert Todo(s)[0] in Todo(s);
      }
    }
  }
}
