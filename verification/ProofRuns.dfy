// That the pool of ProofPool gets anywhere: it starts as many shared jobs as it may, no run goes on for
// ever, and none stops before its end (packages/core/scripts/consumer-lane/installed-proof-runner.ts).
module ProofRuns {
  import opened ProofPlan
  import opened ProofPool

  predicate Ended(s: State) {
    s.main == Threw || s.main == Returned
  }

  // ---- what is left to do -------------------------------------------------------------------------

  /** The attempts that a call may still make. */
  function Open(jobs: seq<Job>, call: Call): nat {
    if call.stage == InFlight && call.job < |jobs| && call.passed < jobs[call.job].repetitions
    then jobs[call.job].repetitions - call.passed else 0
  }

  function OpenAll(jobs: seq<Job>, calls: seq<Call>): nat {
    if calls == [] then 0 else OpenAll(jobs, calls[..|calls| - 1]) + Open(jobs, calls[|calls| - 1])
  }

  /** The calls that have not begun, each with its attempts. */
  function Coming(jobs: seq<Job>, order: seq<nat>, from: nat): nat
    requires InRange(order, |jobs|)
    decreases |order| - from
  {
    if from >= |order| then 0 else 1 + jobs[order[from]].repetitions + Coming(jobs, order, from + 1)
  }

  function NotDone(workers: seq<Worker>): nat {
    if workers == [] then 0 else NotDone(workers[..|workers| - 1]) + if workers[|workers| - 1] == Done then 0 else 1
  }

  function ToGo(main: Main): nat {
    match main case Pooling => 2 case Isolating(_) => 2 case AwaitingIdle => 1 case Threw => 0 case Returned => 0
  }

  function Left(plan: Plan, s: State): nat
    requires WellFormed(plan)
  {
    OpenAll(plan.jobs, s.calls) + Coming(plan.jobs, plan.queue, s.next) + Coming(plan.jobs, plan.last, s.k)
    + NotDone(s.workers) + ToGo(s.main)
  }

  lemma OpenNext(jobs: seq<Job>, calls: seq<Call>, call: Call)
    ensures OpenAll(jobs, calls + [call]) == OpenAll(jobs, calls) + Open(jobs, call)
  {
    assert (calls + [call])[..|calls|] == calls;
  }

  lemma {:induction false} OpenChanged(jobs: seq<Job>, calls: seq<Call>, c: nat, after: Call)
    requires c < |calls|
    ensures OpenAll(jobs, calls[c := after]) == OpenAll(jobs, calls) - Open(jobs, calls[c]) + Open(jobs, after)
  {
    var init, changed := calls[..|calls| - 1], calls[c := after];
    if c == |calls| - 1 {
      assert changed[..|calls| - 1] == init;
    } else {
      assert changed[..|calls| - 1] == init[c := after];
      OpenChanged(jobs, init, c, after);
    }
  }

  lemma {:induction false} NotDoneChanged(workers: seq<Worker>, w: nat, after: Worker)
    requires w < |workers| && workers[w] != Done
    ensures NotDone(workers[w := after]) == NotDone(workers) - if after == Done then 1 else 0
  {
    var init, changed := workers[..|workers| - 1], workers[w := after];
    if w == |workers| - 1 {
      assert changed[..|workers| - 1] == init;
    } else {
      assert changed[..|workers| - 1] == init[w := after];
      NotDoneChanged(init, w, after);
    }
  }

  lemma AttemptedLessens(plan: Plan, s: State, call: nat, passed: bool)
    requires WellFormed(plan) && Inv(plan, s) && InFlightCall(s, call)
    ensures Left(plan, DoAttempted(plan, s, call, passed)) < Left(plan, s)
  {
    assert Tallied(plan, s.calls[call]);
    OpenChanged(plan.jobs, s.calls, call, AttemptedCall(plan.jobs, s.calls[call], passed));
  }

  lemma ResumeLessens(plan: Plan, s: State, worker: nat)
    requires WellFormed(plan) && CanResume(s, worker)
    ensures Left(plan, DoResume(plan, s, worker)) < Left(plan, s)
  {
    NotDoneChanged(s.workers, worker, DoResume(plan, s, worker).workers[worker]);
    if !s.failed && s.next < |plan.queue| {
      OpenNext(plan.jobs, s.calls, Begin(plan.jobs, plan.queue[s.next], Shared));
    }
  }

  lemma ProceedLessens(plan: Plan, s: State)
    requires WellFormed(plan) && DoProceed(plan, s) != s
    ensures Left(plan, DoProceed(plan, s)) < Left(plan, s)
  {
    if CanIsolate(s) && !s.failed && s.k < |plan.last| {
      OpenNext(plan.jobs, s.calls, Begin(plan.jobs, plan.last[s.k], Alone));
    }
  }

  // ---- every run ends -----------------------------------------------------------------------------

  /** How many of the actions of a run have changed anything. */
  function Moves(plan: Plan, actions: seq<Action>): nat
    requires WellFormed(plan)
  {
    if actions == [] then 0 else
      var earlier := actions[..|actions| - 1];
      Moves(plan, earlier) + if Run(plan, actions) == Run(plan, earlier) then 0 else 1
  }

  /** However the calls come back, a run makes no more moves than there is to do at its beginning. */
  lemma {:induction false} EveryRunIsFinite(plan: Plan, actions: seq<Action>)
    requires WellFormed(plan)
    ensures Moves(plan, actions) + Left(plan, Run(plan, actions)) <= Left(plan, Initial(plan))
  {
    if actions != [] {
      var earlier, action := actions[..|actions| - 1], actions[|actions| - 1];
      var s := Run(plan, earlier);
      EveryRunIsFinite(plan, earlier);
      RunKeeps(plan, earlier);
      if Next(plan, s, action) != s {
        match action
        case Attempted(call, passed) => AttemptedLessens(plan, s, call, passed);
        case Resume(worker) => ResumeLessens(plan, s, worker);
        case Proceed => ProceedLessens(plan, s);
      }
    }
  }

  /** A call in flight, a worker or the main function has a next step. */
  lemma SomethingMoves(plan: Plan, s: State) returns (action: Action)
    requires WellFormed(plan) && Inv(plan, s) && !Ended(s)
    ensures Next(plan, s, action) != s
  {
    if s.main == Pooling && !AllDone(s.workers) {
      var w :| 0 <= w < |s.workers| && s.workers[w] != Done;
      if s.workers[w].Awaiting? && InFlightCall(s, s.workers[w].call) {
        action := AttemptMoves(plan, s, s.workers[w].call);
      } else {
        action := Resume(w);
        assert DoResume(plan, s, w).workers[w] != s.workers[w];
      }
    } else if s.main.Isolating? && InFlightCall(s, s.main.awaited) {
      action := AttemptMoves(plan, s, s.main.awaited);
    } else if s.main == AwaitingIdle && !AsideSettled(s.calls) {
      var c :| 0 <= c < |s.calls| && s.calls[c].kind == Aside && s.calls[c].stage == InFlight;
      action := AttemptMoves(plan, s, c);
    } else {
      action := Proceed;
    }
  }

  lemma AttemptMoves(plan: Plan, s: State, call: nat) returns (action: Action)
    requires WellFormed(plan) && Inv(plan, s) && InFlightCall(s, call)
    ensures Next(plan, s, action) != s
  {
    action := Attempted(call, true);
    AttemptedLessens(plan, s, call, true);
  }

  /** A run in which nothing can change any more is over: it has thrown or returned. It returns if and
      only if no attempt of it has failed. */
  lemma QuietRunsAreOver(plan: Plan, actions: seq<Action>)
    requires WellFormed(plan)
    requires forall action :: Next(plan, Run(plan, actions), action) == Run(plan, actions)
    ensures Ended(Run(plan, actions))
    ensures Run(plan, actions).main == Returned <==> !SomeFailed(plan, actions)
  {
    var s := Run(plan, actions);
    RunKeeps(plan, actions);
    FailureIsHeard(plan, actions);
    if !Ended(s) {
      var action := SomethingMoves(plan, s);
    }
  }

  /** An attempt of a call in flight has come back without success. */
  predicate SomeFailed(plan: Plan, actions: seq<Action>)
    requires WellFormed(plan)
  {
    actions != [] &&
    var earlier, action := actions[..|actions| - 1], actions[|actions| - 1];
    || SomeFailed(plan, earlier)
    || (action.Attempted? && !action.passed && InFlightCall(Run(plan, earlier), action.call))
  }

  lemma {:induction false} FailureIsHeard(plan: Plan, actions: seq<Action>)
    requires WellFormed(plan)
    ensures Run(plan, actions).failed <==> SomeFailed(plan, actions)
  {
    if actions != [] {
      FailureIsHeard(plan, actions[..|actions| - 1]);
    }
  }

  // ---- how many shared jobs begin at once ---------------------------------------------------------

  function Starts(n: nat): seq<Action> {
    seq(n, (w: nat) => Resume(w))
  }

  /** Once the first `n` workers have begun, the first `n` shared jobs are under way. */
  ghost predicate Started(plan: Plan, s: State, n: nat)
    requires WellFormed(plan)
  {
    && n <= plan.width == |s.workers| && n <= |plan.queue| && s.next == n && s.main == Pooling && !s.failed
    && (forall w | n <= w < plan.width :: s.workers[w] == Ready)
    && |s.calls| == |plan.apart| + n
    && forall i | 0 <= i < n :: s.calls[|plan.apart| + i] == Begin(plan.jobs, plan.queue[i], Shared)
  }

  lemma {:induction false} WorkersStart(plan: Plan, n: nat)
    requires WellFormed(plan) && n <= plan.width && n <= |plan.queue|
    ensures Started(plan, Run(plan, Starts(n)), n)
  {
    if n == 0 {
      BeginAsideCalls(plan.jobs, plan.apart);
    } else {
      WorkersStart(plan, n - 1);
      assert Starts(n)[..n - 1] == Starts(n - 1);
    }
  }

  /** The workers that begin together take the first shared jobs, as many as may run at once, or all
      when there are fewer; without more than one at a time they take the first. */
  lemma PoolIsFilled(jobs: seq<Job>, concurrency: nat, i: nat)
    requires var plan := PlanFor(jobs, concurrency);
             && i < |plan.queue| && (i < concurrency || i == 0)
             && jobs[plan.queue[i]].repetitions > 0
    ensures var plan := PlanFor(jobs, concurrency);
            var s := Run(plan, Starts(plan.width));
            && |plan.apart| + i in Flying(s.calls, Shared)
            && s.calls[|plan.apart| + i].job == plan.queue[i]
  {
    var plan := PlanFor(jobs, concurrency);
    WorkersStart(plan, plan.width);
  }
}
