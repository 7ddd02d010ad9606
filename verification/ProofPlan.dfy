// Which installed-package proofs run aside, shared or alone, and in which order
// (packages/core/scripts/consumer-lane/installed-proof-runner.ts).
module ProofPlan {

  datatype Job = Job(idle: bool, exclusive: bool, expectedMs: nat, repetitions: nat)

  /** Jobs are named by their place in the list of jobs. */
  datatype Plan = Plan(jobs: seq<Job>, width: nat, apart: seq<nat>, queue: seq<nat>, last: seq<nat>)

  ghost predicate InRange(order: seq<nat>, n: nat) {
    forall i | 0 <= i < |order| :: order[i] < n
  }

  ghost predicate WellFormed(plan: Plan) {
    && plan.width >= 1
    && InRange(plan.apart, |plan.jobs|) && InRange(plan.queue, |plan.jobs|) && InRange(plan.last, |plan.jobs|)
  }

  function Count(order: seq<nat>, job: nat): nat {
    if order == [] then 0
    else Count(order[..|order| - 1], job) + if order[|order| - 1] == job then 1 else 0
  }

  lemma CountAppend(order: seq<nat>, one: nat, job: nat)
    ensures Count(order + [one], job) == Count(order, job) + if one == job then 1 else 0
  {
    assert (order + [one])[..|order|] == order;
  }

  predicate RunsAside(job: Job, parallel: bool) {
    parallel && job.idle
  }

  predicate IsShared(job: Job, parallel: bool) {
    !job.exclusive && !RunsAside(job, parallel)
  }

  function AsideOrder(jobs: seq<Job>, parallel: bool): (order: seq<nat>)
    ensures InRange(order, |jobs|)
  {
    if jobs == [] then [] else
      var j := |jobs| - 1;
      AsideOrder(jobs[..j], parallel) + if RunsAside(jobs[j], parallel) then [j] else []
  }

  /** The exclusive loop does not ask whether a job has run aside. */
  function AloneOrder(jobs: seq<Job>): (order: seq<nat>)
    ensures InRange(order, |jobs|)
  {
    if jobs == [] then [] else
      var j := |jobs| - 1;
      AloneOrder(jobs[..j]) + if jobs[j].exclusive then [j] else []
  }

  lemma CountMaybe(order: seq<nat>, one: nat, chosen: bool, job: nat)
    ensures Count(order + if chosen then [one] else [], job) == Count(order, job) + if chosen && one == job then 1 else 0
  {
    CountAppend(order, one, job);
    assert order + [] == order;
  }

  lemma {:induction false} AsideOnce(jobs: seq<Job>, parallel: bool, job: nat)
    ensures Count(AsideOrder(jobs, parallel), job) == if job < |jobs| && RunsAside(jobs[job], parallel) then 1 else 0
  {
    if jobs != [] {
      var j, init := |jobs| - 1, jobs[..|jobs| - 1];
      AsideOnce(init, parallel, job);
      CountMaybe(AsideOrder(init, parallel), j, RunsAside(jobs[j], parallel), job);
    }
  }

  lemma {:induction false} AloneOnce(jobs: seq<Job>, job: nat)
    ensures Count(AloneOrder(jobs), job) == if job < |jobs| && jobs[job].exclusive then 1 else 0
  {
    if jobs != [] {
      var j, init := |jobs| - 1, jobs[..|jobs| - 1];
      AloneOnce(init, job);
      CountMaybe(AloneOrder(init), j, jobs[j].exclusive, job);
    }
  }

  /** In front of the jobs at the end that are expected to take less time. */
  function Insert(jobs: seq<Job>, order: seq<nat>, j: nat): (inserted: seq<nat>)
    requires InRange(order, |jobs|) && j < |jobs|
    ensures InRange(inserted, |jobs|)
  {
    if order == [] || jobs[order[|order| - 1]].expectedMs >= jobs[j].expectedMs then order + [j]
    else Insert(jobs, order[..|order| - 1], j) + [order[|order| - 1]]
  }

  /** The shared jobs among the first `n`, longest first, equals in the order of the list. */
  function SharedOrder(jobs: seq<Job>, parallel: bool, n: nat): (order: seq<nat>)
    requires n <= |jobs|
    ensures InRange(order, |jobs|)
  {
    if n == 0 then []
    else
      var order := SharedOrder(jobs, parallel, n - 1);
      if IsShared(jobs[n - 1], parallel) then Insert(jobs, order, n - 1) else order
  }

  lemma {:induction false} InsertCounts(jobs: seq<Job>, order: seq<nat>, j: nat, job: nat)
    requires InRange(order, |jobs|) && j < |jobs|
    ensures Count(Insert(jobs, order, j), job) == Count(order, job) + if j == job then 1 else 0
  {
    CountAppend(order, j, job);
    if !(order == [] || jobs[order[|order| - 1]].expectedMs >= jobs[j].expectedMs) {
      var init := order[..|order| - 1];
      InsertCounts(jobs, init, j, job);
      CountAppend(Insert(jobs, init, j), order[|order| - 1], job);
    }
  }

  lemma {:induction false} SharedOnce(jobs: seq<Job>, parallel: bool, n: nat, job: nat)
    requires n <= |jobs|
    ensures Count(SharedOrder(jobs, parallel, n), job) == if job < n && IsShared(jobs[job], parallel) then 1 else 0
  {
    if n > 0 {
      SharedOnce(jobs, parallel, n - 1, job);
      InsertCounts(jobs, SharedOrder(jobs, parallel, n - 1), n - 1, job);
    }
  }

  /** Longest first, equals in the order of the list of jobs. */
  ghost predicate LongestFirst(jobs: seq<Job>, order: seq<nat>) {
    InRange(order, |jobs|) && forall a, b | 0 <= a < b < |order| :: Ahead(jobs, order[a], order[b])
  }

  ghost predicate Ahead(jobs: seq<Job>, one: nat, other: nat)
    requires one < |jobs| && other < |jobs|
  {
    jobs[one].expectedMs > jobs[other].expectedMs || (jobs[one].expectedMs == jobs[other].expectedMs && one < other)
  }

  ghost predicate Ascending(order: seq<nat>) {
    forall a, b | 0 <= a < b < |order| :: order[a] < order[b]
  }

  ghost predicate Below(order: seq<nat>, n: nat) {
    forall a | 0 <= a < |order| :: order[a] < n
  }

  ghost predicate AllAhead(jobs: seq<Job>, order: seq<nat>, other: nat)
    requires InRange(order, |jobs|) && other < |jobs|
  {
    forall a | 0 <= a < |order| :: Ahead(jobs, order[a], other)
  }

  lemma {:induction false} InsertStaysAhead(jobs: seq<Job>, order: seq<nat>, j: nat, other: nat)
    requires InRange(order, |jobs|) && j < |jobs| && other < |jobs|
    requires AllAhead(jobs, order, other) && Ahead(jobs, j, other)
    ensures AllAhead(jobs, Insert(jobs, order, j), other)
  {
    if !(order == [] || jobs[order[|order| - 1]].expectedMs >= jobs[j].expectedMs) {
      InsertStaysAhead(jobs, order[..|order| - 1], j, other);
    }
  }

  lemma {:induction false} InsertStaysBelow(jobs: seq<Job>, order: seq<nat>, j: nat)
    requires InRange(order, |jobs|) && j < |jobs| && Below(order, j)
    ensures Below(Insert(jobs, order, j), j + 1)
  {
    if !(order == [] || jobs[order[|order| - 1]].expectedMs >= jobs[j].expectedMs) {
      InsertStaysBelow(jobs, order[..|order| - 1], j);
    }
  }

  /** The last of a sorted order takes the least time; whatever is inserted comes behind its equals. */
  lemma {:induction false} InsertSorts(jobs: seq<Job>, order: seq<nat>, j: nat)
    requires LongestFirst(jobs, order) && j < |jobs| && Below(order, j)
    ensures LongestFirst(jobs, Insert(jobs, order, j))
  {
    if order == [] {
    } else {
      var init, last := order[..|order| - 1], order[|order| - 1];
      if jobs[last].expectedMs >= jobs[j].expectedMs {
        AheadJoin(jobs, order, last, j);
        LongestNext(jobs, order, j);
      } else {
        InsertSorts(jobs, init, j);
        InsertStaysAhead(jobs, init, j, last);
        LongestNext(jobs, Insert(jobs, init, j), last);
      }
    }
  }

  lemma AheadJoin(jobs: seq<Job>, order: seq<nat>, last: nat, j: nat)
    requires LongestFirst(jobs, order) && order != [] && last == order[|order| - 1] && j < |jobs| && Below(order, j)
    requires jobs[last].expectedMs >= jobs[j].expectedMs
    ensures AllAhead(jobs, order, j)
  {
    forall a | 0 <= a < |order| ensures Ahead(jobs, order[a], j) {
      assert a < |order| - 1 ==> Ahead(jobs, order[a], last);
    }
  }

  lemma LongestNext(jobs: seq<Job>, order: seq<nat>, j: nat)
    requires LongestFirst(jobs, order) && j < |jobs| && AllAhead(jobs, order, j)
    ensures LongestFirst(jobs, order + [j])
  {
  }

  lemma {:induction false} SharedIsLongestFirst(jobs: seq<Job>, parallel: bool, n: nat)
    requires n <= |jobs|
    ensures LongestFirst(jobs, SharedOrder(jobs, parallel, n)) && Below(SharedOrder(jobs, parallel, n), n)
  {
    if n > 0 {
      SharedIsLongestFirst(jobs, parallel, n - 1);
      if IsShared(jobs[n - 1], parallel) {
        InsertSorts(jobs, SharedOrder(jobs, parallel, n - 1), n - 1);
        InsertStaysBelow(jobs, SharedOrder(jobs, parallel, n - 1), n - 1);
      }
    }
  }

  /** The jobs aside and the exclusive ones stay in the order of the list. */
  lemma {:induction false} OthersKeepOrder(jobs: seq<Job>, parallel: bool)
    ensures Ascending(AsideOrder(jobs, parallel)) && Ascending(AloneOrder(jobs))
  {
    if jobs != [] {
      OthersKeepOrder(jobs[..|jobs| - 1], parallel);
    }
  }

  function Width(concurrency: nat, shared: nat): (width: nat)
    ensures width >= 1
  {
    var least := if concurrency < shared then concurrency else shared;
    if least < 1 then 1 else least
  }

  function PlanFor(jobs: seq<Job>, concurrency: nat): (plan: Plan)
    ensures WellFormed(plan)
  {
    var parallel := concurrency > 1;
    var queue := SharedOrder(jobs, parallel, |jobs|);
    Plan(jobs, Width(concurrency, |queue|), AsideOrder(jobs, parallel), queue, AloneOrder(jobs))
  }

  /** Every job has its place: aside an idle one, if several may run at once; alone an exclusive one, even
      if it has run aside; any other is shared. Shared jobs are taken longest first, all others in order. */
  lemma PlanPlacesJobs(jobs: seq<Job>, concurrency: nat, job: nat)
    requires job < |jobs|
    ensures var plan, several := PlanFor(jobs, concurrency), concurrency > 1;
            && LongestFirst(jobs, plan.queue) && Ascending(plan.apart) && Ascending(plan.last)
            && Count(plan.apart, job) == (if several && jobs[job].idle then 1 else 0)
            && Count(plan.last, job) == (if jobs[job].exclusive then 1 else 0)
            && Count(plan.queue, job) == (if jobs[job].exclusive || (several && jobs[job].idle) then 0 else 1)
  {
    var parallel := concurrency > 1;
    AsideOnce(jobs, parallel, job);
    AloneOnce(jobs, job);
    SharedOnce(jobs, parallel, |jobs|, job);
    SharedIsLongestFirst(jobs, parallel, |jobs|);
    OthersKeepOrder(jobs, parallel);
  }
}
