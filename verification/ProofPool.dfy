// The pool that runs the installed-package proofs
// (packages/core/scripts/consumer-lane/installed-proof-runner.ts). A call of `runJob` is a record of
// its own, since a job may be called for twice; one stretch between two `await`s is one step.
module ProofPool {
  import opened Prelude
  import opened ProofPlan

  datatype Kind = Aside | Shared | Alone

  datatype Stage = InFlight | Succeeded | Failed

  /** One call of `runJob`, with the number of attempts that have passed. */
  datatype Call = Call(job: nat, kind: Kind, passed: nat, stage: Stage)

  datatype Worker = Ready | Awaiting(call: nat) | Done

  /** `Pooling`: the workers are awaited; `Isolating`: the exclusive loop, awaiting its last call. */
  datatype Main = Pooling | Isolating(awaited: nat) | AwaitingIdle | Threw | Returned

  /** `next` and `k` are how much of the queue and of the exclusive jobs has been taken. */
  datatype State = State(calls: seq<Call>, workers: seq<Worker>, next: nat, k: nat, failed: bool, main: Main)

  datatype Action = Attempted(call: nat, passed: bool) | Resume(worker: nat) | Proceed

  // ---- steps --------------------------------------------------------------------------------------

  /** `runJob` up to its first attempt; without repetitions it is through at once. */
  function Begin(jobs: seq<Job>, job: nat, kind: Kind): Call
    requires job < |jobs|
  {
    Call(job, kind, 0, if jobs[job].repetitions == 0 then Succeeded else InFlight)
  }

  function BeginAside(jobs: seq<Job>, order: seq<nat>): (calls: seq<Call>)
    requires InRange(order, |jobs|)
  {
    if order == [] then []
    else BeginAside(jobs, order[..|order| - 1]) + [Begin(jobs, order[|order| - 1], Aside)]
  }

  /** The jobs that run aside have begun; the workers are at the head of their loops. */
  function Initial(plan: Plan): State
    requires WellFormed(plan)
  {
    State(BeginAside(plan.jobs, plan.apart), seq(plan.width, _ => Ready), 0, 0, false, Pooling)
  }

  predicate InFlightCall(s: State, call: nat) {
    call < |s.calls| && s.calls[call].stage == InFlight
  }

  /** An attempt comes back: on to the next one, or the verdict. */
  function AttemptedCall(jobs: seq<Job>, call: Call, passed: bool): Call {
    if !passed then Call(call.job, call.kind, call.passed, Failed)
    else
      var more := call.job < |jobs| && call.passed + 1 < jobs[call.job].repetitions;
      Call(call.job, call.kind, call.passed + 1, if more then InFlight else Succeeded)
  }

  function DoAttempted(plan: Plan, s: State, call: nat, passed: bool): State
    requires InFlightCall(s, call)
  {
    State(s.calls[call := AttemptedCall(plan.jobs, s.calls[call], passed)],
          s.workers, s.next, s.k, s.failed || !passed, s.main)
  }

  predicate CanResume(s: State, worker: nat) {
    && worker < |s.workers|
    && s.main == Pooling
    && (s.workers[worker] == Ready || (s.workers[worker].Awaiting? && !InFlightCall(s, s.workers[worker].call)))
  }

  /** At the head of its loop a worker takes the next shared job, unless something has failed. */
  function DoResume(plan: Plan, s: State, worker: nat): State
    requires WellFormed(plan) && CanResume(s, worker)
  {
    if s.failed || s.next >= |plan.queue| then
      State(s.calls, s.workers[worker := Done], s.next, s.k, s.failed, s.main)
    else
      State(s.calls + [Begin(plan.jobs, plan.queue[s.next], Shared)], s.workers[worker := Awaiting(|s.calls|)],
            s.next + 1, s.k, s.failed, s.main)
  }

  predicate AllDone(workers: seq<Worker>) {
    forall w | 0 <= w < |workers| :: workers[w] == Done
  }

  predicate AsideSettled(calls: seq<Call>) {
    forall c | 0 <= c < |calls| :: calls[c].kind == Aside ==> calls[c].stage != InFlight
  }

  /** The exclusive loop: over at a failure or at the end, else the next exclusive job begins. */
  function Isolate(plan: Plan, s: State): State
    requires WellFormed(plan)
  {
    if s.failed || s.k >= |plan.last| then State(s.calls, s.workers, s.next, s.k, s.failed, AwaitingIdle)
    else
      State(s.calls + [Begin(plan.jobs, plan.last[s.k], Alone)], s.workers, s.next, s.k + 1, s.failed,
            Isolating(|s.calls|))
  }

  predicate CanIsolate(s: State) {
    (s.main == Pooling && AllDone(s.workers)) || (s.main.Isolating? && !InFlightCall(s, s.main.awaited))
  }

  function DoProceed(plan: Plan, s: State): State
    requires WellFormed(plan)
  {
    if CanIsolate(s) then Isolate(plan, s)
    else if s.main == AwaitingIdle && AsideSettled(s.calls) then
      State(s.calls, s.workers, s.next, s.k, s.failed, if s.failed then Threw else Returned)
    else s
  }

  function Next(plan: Plan, s: State, action: Action): State
    requires WellFormed(plan)
  {
    match action
    case Attempted(call, passed) => if InFlightCall(s, call) then DoAttempted(plan, s, call, passed) else s
    case Resume(worker) => if CanResume(s, worker) then DoResume(plan, s, worker) else s
    case Proceed => DoProceed(plan, s)
  }

  function Run(plan: Plan, actions: seq<Action>): State
    requires WellFormed(plan)
  {
    if actions == [] then Initial(plan)
    else Next(plan, Run(plan, actions[..|actions| - 1]), actions[|actions| - 1])
  }

  // ---- which jobs have been called for ------------------------------------------------------------

  function OfKind(calls: seq<Call>, kind: Kind): seq<nat> {
    if calls == [] then [] else
      var last := calls[|calls| - 1];
      OfKind(calls[..|calls| - 1], kind) + if last.kind == kind then [last.job] else []
  }

  function Calls(calls: seq<Call>, job: nat): nat {
    if calls == [] then 0
    else Calls(calls[..|calls| - 1], job) + if calls[|calls| - 1].job == job then 1 else 0
  }

  lemma {:induction false} CallsByKind(calls: seq<Call>, job: nat)
    ensures Calls(calls, job) == Count(OfKind(calls, Aside), job) + Count(OfKind(calls, Shared), job)
                                 + Count(OfKind(calls, Alone), job)
  {
    if calls != [] {
      var init, last := calls[..|calls| - 1], calls[|calls| - 1];
      CallsByKind(init, job);
      CountAppend(OfKind(init, last.kind), last.job, job);
      assert forall kind :: OfKind(init, kind) + [] == OfKind(init, kind);
    }
  }

  lemma OfKindNext(calls: seq<Call>, call: Call, kind: Kind)
    ensures OfKind(calls + [call], kind) == OfKind(calls, kind) + if call.kind == kind then [call.job] else []
  {
    assert (calls + [call])[..|calls|] == calls;
  }

  /** Going on with a call changes neither its job nor its kind. */
  lemma {:induction false} OfKindKept(calls: seq<Call>, call: nat, after: Call, kind: Kind)
    requires call < |calls| && after.job == calls[call].job && after.kind == calls[call].kind
    ensures OfKind(calls[call := after], kind) == OfKind(calls, kind)
  {
    var init, changed := calls[..|calls| - 1], calls[call := after];
    if call == |calls| - 1 {
      assert changed[..|calls| - 1] == init;
    } else {
      assert changed[..|calls| - 1] == init[call := after];
      OfKindKept(init, call, after, kind);
    }
  }

  lemma {:induction false} BeginAsideOfKind(jobs: seq<Job>, order: seq<nat>, kind: Kind)
    requires InRange(order, |jobs|)
    ensures OfKind(BeginAside(jobs, order), kind) == if kind == Aside then order else []
  {
    if order != [] {
      var init, last := order[..|order| - 1], order[|order| - 1];
      BeginAsideOfKind(jobs, init, kind);
      OfKindNext(BeginAside(jobs, init), Begin(jobs, last, Aside), kind);
      assert order == init + [last];
    }
  }

  lemma {:induction false} BeginAsideCalls(jobs: seq<Job>, order: seq<nat>)
    requires InRange(order, |jobs|)
    ensures var calls := BeginAside(jobs, order);
            |calls| == |order| && forall c | 0 <= c < |calls| :: calls[c] == Begin(jobs, order[c], Aside)
  {
    if order != [] {
      BeginAsideCalls(jobs, order[..|order| - 1]);
    }
  }

  lemma BeginAsideKinds(jobs: seq<Job>, order: seq<nat>)
    requires InRange(order, |jobs|)
    ensures var calls := BeginAside(jobs, order);
            && OfKind(calls, Aside) == order && OfKind(calls, Shared) == [] && OfKind(calls, Alone) == []
            && |calls| == |order| && forall c | 0 <= c < |calls| :: calls[c] == Begin(jobs, order[c], Aside)
  {
    BeginAsideCalls(jobs, order);
    BeginAsideOfKind(jobs, order, Aside);
    BeginAsideOfKind(jobs, order, Shared);
    BeginAsideOfKind(jobs, order, Alone);
  }

  // ---- invariants ---------------------------------------------------------------------------------

  /** The jobs aside, the queue as far as it was taken, and the exclusive jobs so far: in order. */
  ghost predicate Begun(plan: Plan, s: State) {
    && s.next <= |plan.queue| && s.k <= |plan.last|
    && OfKind(s.calls, Aside) == plan.apart
    && OfKind(s.calls, Shared) == plan.queue[..s.next]
    && OfKind(s.calls, Alone) == plan.last[..s.k]
  }

  /** A call that succeeded has passed all its attempts, one in flight has not. */
  ghost predicate Tallied(plan: Plan, call: Call) {
    && call.job < |plan.jobs|
    && (call.stage == Succeeded ==> call.passed == plan.jobs[call.job].repetitions)
    && (call.stage == InFlight ==> call.passed < plan.jobs[call.job].repetitions)
  }

  /** Every call is tallied, and a failure is on record. */
  ghost predicate Honest(plan: Plan, s: State) {
    && (forall c | 0 <= c < |s.calls| :: Tallied(plan, s.calls[c]))
    && (s.failed <==> exists c :: 0 <= c < |s.calls| && s.calls[c].stage == Failed)
  }

  /** Workers await shared calls of their own, and every shared call in flight is awaited. */
  ghost predicate Attended(calls: seq<Call>, workers: seq<Worker>) {
    && (forall w | 0 <= w < |workers| && workers[w].Awaiting? ::
          workers[w].call < |calls| && calls[workers[w].call].kind == Shared)
    && (forall v, w | 0 <= v < w < |workers| && workers[v].Awaiting? && workers[w].Awaiting? ::
          workers[v].call != workers[w].call)
    && (forall c | 0 <= c < |calls| && calls[c].kind == Shared && calls[c].stage == InFlight ::
          exists w :: 0 <= w < |workers| && workers[w] == Awaiting(c))
  }

  /** Where the main function is, and what that says of the workers and of the calls in flight. */
  ghost predicate Staged(plan: Plan, s: State) {
    && |s.workers| == plan.width
    && (forall w | 0 <= w < |s.workers| && s.workers[w] == Done :: s.failed || s.next == |plan.queue|)
    && (s.main != Pooling ==> AllDone(s.workers))
    && (forall c | 0 <= c < |s.calls| && s.calls[c].kind == Alone && s.calls[c].stage == InFlight ::
          s.main == Isolating(c))
    && (s.main == AwaitingIdle || s.main == Threw || s.main == Returned ==> s.failed || s.k == |plan.last|)
    && (s.main == Threw || s.main == Returned ==> AsideSettled(s.calls))
    && (s.main == Threw ==> s.failed) && (s.main == Returned ==> !s.failed)
  }

  ghost predicate Inv(plan: Plan, s: State) {
    && Begun(plan, s) && Honest(plan, s) && Attended(s.calls, s.workers) && Staged(plan, s)
  }

  lemma InitialHolds(plan: Plan)
    requires WellFormed(plan)
    ensures Inv(plan, Initial(plan))
  {
    BeginAsideKinds(plan.jobs, plan.apart);
    InitialIsStaged(plan);
    InitialIsHonest(plan);
  }

  lemma InitialIsStaged(plan: Plan)
    requires WellFormed(plan)
    ensures var s := Initial(plan); Attended(s.calls, s.workers) && Staged(plan, s)
  {
    BeginAsideCalls(plan.jobs, plan.apart);
    var s := Initial(plan);
    assert forall w | 0 <= w < |s.workers| :: s.workers[w] == Ready;
  }

  lemma InitialIsHonest(plan: Plan)
    requires WellFormed(plan)
    ensures Honest(plan, Initial(plan))
  {
    BeginAsideKinds(plan.jobs, plan.apart);
    var s := Initial(plan);
    forall c | 0 <= c < |s.calls| ensures Tallied(plan, s.calls[c]) && s.calls[c].stage != Failed {
      BeginIsTallied(plan, plan.apart[c], Aside);
    }
  }

  lemma BeginIsTallied(plan: Plan, job: nat, kind: Kind)
    requires job < |plan.jobs|
    ensures Tallied(plan, Begin(plan.jobs, job, kind)) && Begin(plan.jobs, job, kind).stage != Failed
  {
  }

  /** The failure on record stays there, whatever else becomes of the calls. */
  lemma FailureStays(calls: seq<Call>, after: seq<Call>)
    requires |calls| <= |after|
    requires forall c | 0 <= c < |calls| && calls[c].stage == Failed :: after[c].stage == Failed
    requires exists c :: 0 <= c < |calls| && calls[c].stage == Failed
    ensures exists c :: 0 <= c < |after| && after[c].stage == Failed
  {
    var c :| 0 <= c < |calls| && calls[c].stage == Failed;
    assert after[c].stage == Failed;
  }

  lemma AttemptedIsHonest(plan: Plan, s: State, call: nat, passed: bool)
    requires Honest(plan, s) && InFlightCall(s, call)
    ensures Honest(plan, DoAttempted(plan, s, call, passed))
  {
    var t := DoAttempted(plan, s, call, passed);
    assert Tallied(plan, s.calls[call]);
    assert Tallied(plan, t.calls[call]);
    forall c | 0 <= c < |t.calls| ensures Tallied(plan, t.calls[c]) {
      assert c != call ==> Tallied(plan, s.calls[c]);
    }
    if !passed {
      assert t.calls[call].stage == Failed;
    } else if s.failed {
      FailureStays(s.calls, t.calls);
    } else {
      assert t.calls[call].stage != Failed;
    }
  }

  lemma AttemptedKeeps(plan: Plan, s: State, call: nat, passed: bool)
    requires Inv(plan, s) && InFlightCall(s, call)
    ensures Inv(plan, DoAttempted(plan, s, call, passed))
  {
    var after := AttemptedCall(plan.jobs, s.calls[call], passed);
    OfKindKept(s.calls, call, after, Aside);
    OfKindKept(s.calls, call, after, Shared);
    OfKindKept(s.calls, call, after, Alone);
    AttemptedIsHonest(plan, s, call, passed);
  }

  /** What one more call means for the record. */
  lemma BeganIsHonest(plan: Plan, s: State, t: State, call: Call)
    requires Honest(plan, s) && t.calls == s.calls + [call] && t.failed == s.failed
    requires call.job < |plan.jobs| && call == Begin(plan.jobs, call.job, call.kind)
    ensures Honest(plan, t)
  {
    assert Tallied(plan, call);
    forall c | 0 <= c < |t.calls| ensures Tallied(plan, t.calls[c]) {
      assert c < |s.calls| ==> Tallied(plan, s.calls[c]);
    }
    if s.failed {
      FailureStays(s.calls, t.calls);
    }
  }

  lemma Taken(order: seq<nat>, n: nat)
    requires n < |order|
    ensures order[..n + 1] == order[..n] + [order[n]]
  {
  }

  lemma ResumeBegins(plan: Plan, s: State, worker: nat)
    requires WellFormed(plan) && CanResume(s, worker) && Begun(plan, s) && Honest(plan, s)
    ensures Begun(plan, DoResume(plan, s, worker)) && Honest(plan, DoResume(plan, s, worker))
  {
    if !s.failed && s.next < |plan.queue| {
      var call := Begin(plan.jobs, plan.queue[s.next], Shared);
      OfKindNext(s.calls, call, Aside);
      OfKindNext(s.calls, call, Shared);
      OfKindNext(s.calls, call, Alone);
      Taken(plan.queue, s.next);
      BeganIsHonest(plan, s, DoResume(plan, s, worker), call);
    }
  }

  lemma ResumeAttends(plan: Plan, s: State, worker: nat)
    requires WellFormed(plan) && CanResume(s, worker) && Attended(s.calls, s.workers)
    ensures Attended(DoResume(plan, s, worker).calls, DoResume(plan, s, worker).workers)
  {
    var t := DoResume(plan, s, worker);
    forall c | 0 <= c < |t.calls| && t.calls[c].kind == Shared && t.calls[c].stage == InFlight
      ensures exists w :: 0 <= w < |t.workers| && t.workers[w] == Awaiting(c)
    {
      if c < |s.calls| {
        var w :| 0 <= w < |s.workers| && s.workers[w] == Awaiting(c);
        assert t.workers[w] == Awaiting(c);
      } else {
        assert t.workers[worker] == Awaiting(c);
      }
    }
  }

  lemma ResumeStages(plan: Plan, s: State, worker: nat)
    requires WellFormed(plan) && CanResume(s, worker) && Begun(plan, s) && Staged(plan, s)
    ensures Staged(plan, DoResume(plan, s, worker))
  {
    if !s.failed && s.next < |plan.queue| {
      assert forall w | 0 <= w < |s.workers| :: s.workers[w] != Done;
    }
  }

  lemma IsolateBegins(plan: Plan, s: State)
    requires WellFormed(plan) && Begun(plan, s) && Honest(plan, s)
    ensures Begun(plan, Isolate(plan, s)) && Honest(plan, Isolate(plan, s))
  {
    if !s.failed && s.k < |plan.last| {
      var call := Begin(plan.jobs, plan.last[s.k], Alone);
      OfKindNext(s.calls, call, Aside);
      OfKindNext(s.calls, call, Shared);
      OfKindNext(s.calls, call, Alone);
      Taken(plan.last, s.k);
      BeganIsHonest(plan, s, Isolate(plan, s), call);
    }
  }

  lemma IsolateStages(plan: Plan, s: State)
    requires WellFormed(plan) && CanIsolate(s) && Begun(plan, s) && Attended(s.calls, s.workers) && Staged(plan, s)
    ensures Attended(Isolate(plan, s).calls, Isolate(plan, s).workers) && Staged(plan, Isolate(plan, s))
  {
    assert AllDone(s.workers);
    var t := Isolate(plan, s);
    assert forall c | 0 <= c < |t.calls| && t.calls[c].kind == Shared :: c < |s.calls| && t.calls[c] == s.calls[c];
  }

  lemma NextKeeps(plan: Plan, s: State, action: Action)
    requires WellFormed(plan) && Inv(plan, s)
    ensures Inv(plan, Next(plan, s, action))
  {
    match action
    case Attempted(call, passed) => if InFlightCall(s, call) { AttemptedKeeps(plan, s, call, passed); }
    case Resume(worker) =>
      if CanResume(s, worker) {
        ResumeBegins(plan, s, worker);
        ResumeAttends(plan, s, worker);
        ResumeStages(plan, s, worker);
      }
    case Proceed =>
      if CanIsolate(s) {
        IsolateBegins(plan, s);
        IsolateStages(plan, s);
      }
  }

  lemma {:induction false} RunKeeps(plan: Plan, actions: seq<Action>)
    requires WellFormed(plan)
    ensures Inv(plan, Run(plan, actions))
  {
    if actions == [] {
      InitialHolds(plan);
    } else {
      RunKeeps(plan, actions[..|actions| - 1]);
      NextKeeps(plan, Run(plan, actions[..|actions| - 1]), actions[|actions| - 1]);
    }
  }

  // ---- what a run keeps to -------------------------------------------------------------------------

  /** The calls of a kind that are in flight. */
  ghost function Flying(calls: seq<Call>, kind: Kind): set<nat> {
    set c | 0 <= c < |calls| && calls[c].kind == kind && calls[c].stage == InFlight
  }

  ghost function AwaitedBy(workers: seq<Worker>): set<nat> {
    set w | 0 <= w < |workers| && workers[w].Awaiting? :: workers[w].call
  }

  lemma {:induction false} AwaitedAreFew(workers: seq<Worker>)
    ensures |AwaitedBy(workers)| <= |workers|
  {
    if workers == [] {
      assert AwaitedBy(workers) == {};
    } else {
      var init, last := workers[..|workers| - 1], workers[|workers| - 1];
      AwaitedAreFew(init);
      var rest := if last.Awaiting? then {last.call} else {};
      assert AwaitedBy(workers) == AwaitedBy(init) + rest by {
        assert forall w | 0 <= w < |init| :: init[w] == workers[w];
      }
      assert |AwaitedBy(init) + rest| <= |AwaitedBy(init)| + |rest|;
    }
  }

  /** Shared jobs in flight never exceed the width of the pool. */
  lemma PoolIsBounded(plan: Plan, actions: seq<Action>)
    requires WellFormed(plan)
    ensures |Flying(Run(plan, actions).calls, Shared)| <= plan.width
  {
    RunKeeps(plan, actions);
    var s := Run(plan, actions);
    forall c | c in Flying(s.calls, Shared) ensures c in AwaitedBy(s.workers) {
      var w :| 0 <= w < |s.workers| && s.workers[w] == Awaiting(c);
    }
    SubsetIsSmaller(Flying(s.calls, Shared), AwaitedBy(s.workers));
    AwaitedAreFew(s.workers);
  }

  /** An exclusive job in flight has only jobs aside beside it. */
  lemma ExclusiveIsAlone(plan: Plan, actions: seq<Action>, c: nat, d: nat)
    requires WellFormed(plan)
    requires c in Flying(Run(plan, actions).calls, Alone) && d != c && InFlightCall(Run(plan, actions), d)
    ensures Run(plan, actions).calls[d].kind == Aside
  {
    RunKeeps(plan, actions);
    var s := Run(plan, actions);
    NoneShared(s);
  }

  /** With every worker done no shared call is in flight. */
  lemma NoneShared(s: State)
    requires Attended(s.calls, s.workers) && AllDone(s.workers)
    ensures forall c | 0 <= c < |s.calls| && s.calls[c].kind == Shared :: s.calls[c].stage != InFlight
  {
    forall c | 0 <= c < |s.calls| && s.calls[c].kind == Shared ensures s.calls[c].stage != InFlight {
      assert forall w | 0 <= w < |s.workers| :: s.workers[w] != Awaiting(c);
    }
  }

  /** Once something has failed no call begins any more: the calls stay the ones there are. */
  lemma NothingBeginsAfterFailure(plan: Plan, actions: seq<Action>, action: Action)
    requires WellFormed(plan) && Run(plan, actions).failed
    ensures var s := Run(plan, actions); var t := Next(plan, s, action);
            |t.calls| == |s.calls| && t.failed
  {
  }

  /** The function throws or returns only when every call has settled; it throws exactly when one
      failed, and a normal return means that every job was called and made all its repetitions. */
  lemma VerdictIsFinal(jobs: seq<Job>, concurrency: nat, actions: seq<Action>)
    ensures var s := Run(PlanFor(jobs, concurrency), actions);
            && (s.main == Threw || s.main == Returned ==> forall c | 0 <= c < |s.calls| :: s.calls[c].stage != InFlight)
            && (s.main == Threw ==> exists c :: 0 <= c < |s.calls| && s.calls[c].stage == Failed)
            && (s.main == Returned ==>
                  && (forall c | 0 <= c < |s.calls| ::
                        s.calls[c].stage == Succeeded && Tallied(PlanFor(jobs, concurrency), s.calls[c]))
                  && (forall job | 0 <= job < |jobs| :: Calls(s.calls, job) >= 1))
  {
    var plan := PlanFor(jobs, concurrency);
    var s := Run(plan, actions);
    RunKeeps(plan, actions);
    if s.main == Threw || s.main == Returned {
      NoneShared(s);
    }
    if s.main == Returned {
      forall job: nat | job < |jobs| ensures Calls(s.calls, job) >= 1 {
        CalledWhenReturned(jobs, concurrency, actions, job);
      }
    }
  }

  lemma QueueTaken(plan: Plan, actions: seq<Action>)
    requires WellFormed(plan) && Run(plan, actions).main == Returned
    ensures var s := Run(plan, actions); s.next == |plan.queue| && s.k == |plan.last|
  {
    RunKeeps(plan, actions);
    assert Run(plan, actions).workers[0] == Done;
  }

  /** In a run that returns every job is called for exactly once, unless it is both idle and
      exclusive and several proofs may run at once: then it is called for twice. */
  lemma CalledWhenReturned(jobs: seq<Job>, concurrency: nat, actions: seq<Action>, job: nat)
    requires Run(PlanFor(jobs, concurrency), actions).main == Returned
    requires job < |jobs|
    ensures Calls(Run(PlanFor(jobs, concurrency), actions).calls, job)
         == if concurrency > 1 && jobs[job].idle && jobs[job].exclusive then 2 else 1
  {
    var plan := PlanFor(jobs, concurrency);
    var s := Run(plan, actions);
    RunKeeps(plan, actions);
    QueueTaken(plan, actions);
    CallsByKind(s.calls, job);
    PlanPlacesJobs(jobs, concurrency, job);
    assert plan.queue[..|plan.queue|] == plan.queue && plan.last[..|plan.last|] == plan.last;
  }

  lemma {:induction false} CountOfPrefix(order: seq<nat>, n: nat, job: nat)
    requires n <= |order|
    ensures Count(order[..n], job) <= Count(order, job)
  {
    if n < |order| {
      CountOfPrefix(order[..|order| - 1], n, job);
      assert order[..|order| - 1][..n] == order[..n];
    } else {
      assert order[..n] == order;
    }
  }

  /** In every run a job that is not both idle and exclusive, or any job when proofs run one at a
      time, is called for at most once. */
  lemma CalledAtMostOnce(jobs: seq<Job>, concurrency: nat, actions: seq<Action>, job: nat)
    requires job < |jobs|
    requires !(concurrency > 1 && jobs[job].idle && jobs[job].exclusive)
    ensures Calls(Run(PlanFor(jobs, concurrency), actions).calls, job) <= 1
  {
    var plan := PlanFor(jobs, concurrency);
    var s := Run(plan, actions);
    RunKeeps(plan, actions);
    CallsByKind(s.calls, job);
    PlanPlacesJobs(jobs, concurrency, job);
    CountOfPrefix(plan.queue, s.next, job);
    CountOfPrefix(plan.last, s.k, job);
  }

  lemma PlanOfOne(job: Job)
    requires job.idle && job.exclusive
    ensures PlanFor([job], 2) == Plan([job], 1, [0], [], [0])
  {
    assert [job][..0] == [];
    assert AsideOrder([], true) == [] && AloneOrder([]) == [];
    assert AsideOrder([job], true) == [0] && AloneOrder([job]) == [0];
    assert SharedOrder([job], true, 0) == [];
    assert SharedOrder([job], true, 1) == [];
  }

  /** A job both idle and exclusive is not held back: its second call begins beside its first. */
  lemma IdleExclusiveRunsTwice(job: Job)
    requires job.idle && job.exclusive && job.repetitions > 0
    ensures var s := Run(PlanFor([job], 2), [Resume(0), Proceed]);
            s.calls == [Call(0, Aside, 0, InFlight), Call(0, Alone, 0, InFlight)]
  {
    PlanOfOne(job);
    var plan := Plan([job], 1, [0], [], [0]);
    var actions := [Resume(0), Proceed];
    assert actions[..1] == [Resume(0)] && actions[..1][..0] == [];
    BeginAsideKinds(plan.jobs, plan.apart);
    assert Initial(plan).calls == [Call(0, Aside, 0, InFlight)];
    var t := DoResume(plan, Initial(plan), 0);
    assert t.workers == [Done];
    assert Run(plan, [Resume(0)]) == t;
    assert Run(plan, actions) == Isolate(plan, t);
  }

  // ---- the runner ---------------------------------------------------------------------------------

  class Runner {
    const plan: Plan
    var calls: seq<Call>
    var workers: seq<Worker>
    var next: nat
    var k: nat
    var failed: bool
    var main: Main

    ghost function Value(): State
      reads this
    {
      State(calls, workers, next, k, failed, main)
    }

    constructor (jobs: seq<Job>, concurrency: nat)
      ensures plan == PlanFor(jobs, concurrency)
      ensures Value() == Initial(plan) && Inv(plan, Value())
    {
      var chosen := PlanFor(jobs, concurrency);
      plan := chosen;
      calls, workers := BeginAside(chosen.jobs, chosen.apart), seq(chosen.width, _ => Ready);
      next, k, failed, main := 0, 0, false, Pooling;
      new;
      InitialHolds(plan);
    }

    /** `runJob` from the end of an attempt to the next one, or to its verdict. */
    method EndAttempt(call: nat, passed: bool)
      requires WellFormed(plan) && Inv(plan, Value()) && InFlightCall(Value(), call)
      modifies this`calls, this`failed
      ensures Value() == DoAttempted(plan, old(Value()), call, passed) && Inv(plan, Value())
    {
      AttemptedKeeps(plan, Value(), call, passed);
      var current := calls[call];
      if !passed {
        calls := calls[call := Call(current.job, current.kind, current.passed, Failed)];
        failed := true;
      } else if current.passed + 1 < plan.jobs[current.job].repetitions {
        calls := calls[call := Call(current.job, current.kind, current.passed + 1, InFlight)];
      } else {
        calls := calls[call := Call(current.job, current.kind, current.passed + 1, Succeeded)];
      }
    }

    /** A worker's loop from its head to its next `await`, or to its end. */
    method Work(worker: nat)
      requires WellFormed(plan) && Inv(plan, Value()) && CanResume(Value(), worker)
      modifies this`calls, this`workers, this`next
      ensures Value() == DoResume(plan, old(Value()), worker) && Inv(plan, Value())
    {
      NextKeeps(plan, Value(), Resume(worker));
      if failed || next >= |plan.queue| {
        workers := workers[worker := Done];
        return;
      }
      var job := plan.queue[next];
      next := next + 1;
      workers := workers[worker := Awaiting(|calls|)];
      calls := calls + [Begin(plan.jobs, job, Shared)];
    }

    /** The main function, where what it awaits has settled, up to its next `await` or its end. */
    method GoOn()
      requires WellFormed(plan) && Inv(plan, Value())
      modifies this`calls, this`k, this`main
      ensures Value() == DoProceed(plan, old(Value())) && Inv(plan, Value())
    {
      ghost var after := DoProceed(plan, Value());
      assert Inv(plan, after) by {
        NextKeeps(plan, Value(), Proceed);
      }
      if (main == Pooling && AllDone(workers)) || (main.Isolating? && !IsInFlight(main.awaited)) {
        NextExclusive();
      } else if main == AwaitingIdle && AsideSettled(calls) {
        main := if failed then Threw else Returned;
      }
      assert Value() == after;
    }

    method NextExclusive()
      requires WellFormed(plan)
      modifies this`calls, this`k, this`main
      ensures Value() == Isolate(plan, old(Value()))
    {
      if failed || k >= |plan.last| {
        main := AwaitingIdle;
      } else {
        main := Isolating(|calls|);
        calls := calls + [Begin(plan.jobs, plan.last[k], Alone)];
        k := k + 1;
      }
    }

    predicate IsInFlight(call: nat)
      reads this
    {
      call < |calls| && calls[call].stage == InFlight
    }
  }
}
