// Budgets of child conversations: what a spawn is granted
// (packages/core/src/agent-runtime/children-spawn.ts) and what its steps use up
// (packages/core/src/agent-runtime/children-usage.ts).
module ChildBudget {
  import opened Prelude

  /** Tokens and milliseconds are whole numbers, cost is fractional; sums are not rounded here. */
  type Amount = x: real | 0.0 <= x witness 0.0

  datatype Dimension = Tokens | Usd | Milliseconds

  /** An absent limit is no limit. */
  datatype Budget = Budget(tokens: Option<Amount>, usd: Option<Amount>, milliseconds: Option<Amount>) {
    function At(d: Dimension): Option<Amount> {
      match d case Tokens => tokens case Usd => usd case Milliseconds => milliseconds
    }
  }

  datatype Usage = Usage(tokens: Amount, usd: Amount, milliseconds: Amount) {
    function At(d: Dimension): Amount {
      match d case Tokens => tokens case Usd => usd case Milliseconds => milliseconds
    }

    function Plus(other: Usage): Usage {
      Usage(tokens + other.tokens, usd + other.usd, milliseconds + other.milliseconds)
    }
  }

  const NOTHING := Usage(0.0, 0.0, 0.0)

  // ---- granting ------------------------------------------------------------------------------------

  function Bounded(requested: Option<Amount>, available: Option<Amount>): Option<Amount> {
    if requested.None? then available
    else if available.None? then requested
    else if requested.value < available.value then requested
    else available
  }

  /** `grantedBudget`: without a remainder the request itself. */
  function Granted(requested: Budget, remaining: Option<Budget>): Budget {
    var available := if remaining.Some? then remaining.value else Budget(None, None, None);
    Budget(Bounded(requested.tokens, available.tokens), Bounded(requested.usd, available.usd),
           Bounded(requested.milliseconds, available.milliseconds))
  }

  predicate Within(usage: Usage, budget: Budget) {
    forall d: Dimension :: budget.At(d).Some? ==> usage.At(d) <= budget.At(d).value
  }

  /** The grant allows exactly what both the request and the parent's remainder allow. */
  lemma GrantIsMeet(requested: Budget, remaining: Option<Budget>, usage: Usage)
    ensures Within(usage, Granted(requested, remaining)) <==>
              Within(usage, requested) && (remaining.Some? ==> Within(usage, remaining.value))
  {
    forall d: Dimension
      ensures (Granted(requested, remaining).At(d).Some? ==> usage.At(d) <= Granted(requested, remaining).At(d).value)
              <==> && (requested.At(d).Some? ==> usage.At(d) <= requested.At(d).value)
                   && (remaining.Some? && remaining.value.At(d).Some? ==> usage.At(d) <= remaining.value.At(d).value)
    {
    }
  }

  // ---- a step's usage --------------------------------------------------------------------------------

  /** What is measured of a step; tokens and cost may be unknown. */
  datatype Step = Step(tokens: Option<Amount>, usd: Option<Amount>, elapsedMs: Amount)

  /** A limit that cannot be measured is not enforced silently: the step is refused. */
  predicate Measurable(budget: Budget, step: Step) {
    (budget.tokens.Some? ==> step.tokens.Some?) && (budget.usd.Some? ==> step.usd.Some?)
  }

  function UsageOf(step: Step): Usage {
    Usage(if step.tokens.Some? then step.tokens.value else 0.0,
          if step.usd.Some? then step.usd.value else 0.0,
          step.elapsedMs)
  }

  function Over(used: Amount, limit: Option<Amount>): Amount {
    if limit.None? || used <= limit.value then 0.0 else used - limit.value
  }

  function Overrun(usage: Usage, budget: Budget): Usage {
    Usage(Over(usage.tokens, budget.tokens), Over(usage.usd, budget.usd), Over(usage.milliseconds, budget.milliseconds))
  }

  predicate Stops(usage: Usage, budget: Budget) {
    || (budget.tokens.Some? && usage.tokens >= budget.tokens.value)
    || (budget.usd.Some? && usage.usd >= budget.usd.value)
    || (budget.milliseconds.Some? && usage.milliseconds >= budget.milliseconds.value)
  }

  function Total(steps: seq<Step>): Usage {
    if steps == [] then NOTHING else Total(steps[..|steps| - 1]).Plus(UsageOf(steps[|steps| - 1]))
  }

  lemma TotalNext(steps: seq<Step>, step: Step)
    ensures Total(steps + [step]) == Total(steps).Plus(UsageOf(step))
  {
    assert (steps + [step])[..|steps|] == steps;
  }

  lemma {:induction false} TotalGrows(steps: seq<Step>, more: seq<Step>, d: Dimension)
    ensures Total(steps).At(d) <= Total(steps + more).At(d)
  {
    if more == [] {
      assert steps + more == steps;
    } else {
      var init, last := more[..|more| - 1], more[|more| - 1];
      TotalGrows(steps, init, d);
      TotalNext(steps + init, last);
      assert steps + more == steps + init + [last];
    }
  }

  /** A step counts with what is measured of it: unknown tokens or cost count for nothing. */
  lemma StepCounts(steps: seq<Step>, step: Step)
    ensures var before, after := Total(steps), Total(steps + [step]);
            && after.tokens - before.tokens == (match step.tokens case Some(tokens) => tokens case None => 0.0)
            && after.usd - before.usd == (match step.usd case Some(usd) => usd case None => 0.0)
            && after.milliseconds - before.milliseconds == step.elapsedMs
  {
    TotalNext(steps, step);
  }

  /** Once the budget stops a child, no later step takes that back. */
  lemma StopIsFinal(budget: Budget, steps: seq<Step>, more: seq<Step>)
    requires Stops(Total(steps), budget)
    ensures Stops(Total(steps + more), budget)
  {
    TotalGrows(steps, more, Tokens);
    TotalGrows(steps, more, Usd);
    TotalGrows(steps, more, Milliseconds);
  }

  /** At the first stop a child is over its budget by at most what its last step used. */
  lemma FirstStopOverrun(budget: Budget, steps: seq<Step>, step: Step, d: Dimension)
    requires steps == [] || !Stops(Total(steps), budget)
    ensures Overrun(Total(steps + [step]), budget).At(d) <= UsageOf(step).At(d)
  {
    TotalNext(steps, step);
  }

  /** The child is not stopped as long as it is strictly inside its budget, and only then. */
  lemma StopsAtTheLimit(usage: Usage, budget: Budget)
    ensures Stops(usage, budget) <==> exists d: Dimension :: budget.At(d).Some? && usage.At(d) >= budget.At(d).value
    ensures Overrun(usage, budget) == NOTHING <==> Within(usage, budget)
  {
    assert budget.At(Tokens) == budget.tokens && budget.At(Usd) == budget.usd
           && budget.At(Milliseconds) == budget.milliseconds;
    assert usage.At(Tokens) == usage.tokens && usage.At(Usd) == usage.usd
           && usage.At(Milliseconds) == usage.milliseconds;
  }

  /** The overrun is the least raise of a limit that the usage keeps to. */
  lemma OverrunIsLeast(usage: Usage, budget: Budget, d: Dimension, raise: Amount)
    requires budget.At(d).Some?
    ensures Overrun(usage, budget).At(d) <= raise <==> usage.At(d) <= budget.At(d).value + raise
  {
    assert Overrun(usage, budget).At(d) == Over(usage.At(d), budget.At(d));
  }

  // ---- overlapping calls -----------------------------------------------------------------------------

  /** A call that has read the row and not yet written it back; `seen` counts the writes it saw. */
  datatype Pending = Pending(step: Step, read: Usage, seen: nat)

  /** The stored usage, the calls under way, and the steps written so far. */
  datatype Store = Store(usage: Usage, pending: map<nat, Pending>, written: seq<Step>)

  datatype Action = Read(call: nat, step: Step) | Write(call: nat)

  /** The row is read before the stop policy and the transaction are awaited, and written after. */
  function Next(s: Store, action: Action): Store {
    match action
    case Read(call, step) => Store(s.usage, s.pending[call := Pending(step, s.usage, |s.written|)], s.written)
    case Write(call) =>
      if call !in s.pending then s
      else
        var pending := s.pending[call];
        Store(pending.read.Plus(UsageOf(pending.step)), s.pending - {call}, s.written + [pending.step])
  }

  function Run(actions: seq<Action>): Store {
    if actions == [] then Store(NOTHING, map[], [])
    else Next(Run(actions[..|actions| - 1]), actions[|actions| - 1])
  }

  /** Between a call's reading and its writing no other call has written a step that used anything. */
  predicate Undisturbed(s: Store, action: Action) {
    action.Write? && action.call in s.pending ==> Unused(s.written, s.pending[action.call].seen)
  }

  predicate Unused(steps: seq<Step>, from: nat) {
    forall i | from <= i < |steps| :: UsageOf(steps[i]) == NOTHING
  }

  predicate NoOverlap(actions: seq<Action>) {
    actions == [] ||
    (NoOverlap(actions[..|actions| - 1]) && Undisturbed(Run(actions[..|actions| - 1]), actions[|actions| - 1]))
  }

  /** What is stored has been the sum of all steps written, all the time. */
  predicate AlwaysExact(actions: seq<Action>) {
    forall n | 0 <= n <= |actions| :: Exact(Run(actions[..n]))
  }

  predicate Exact(s: Store) {
    s.usage == Total(s.written)
  }

  /** A call has read the sum of the writes it saw. */
  ghost predicate TracedCall(written: seq<Step>, call: Pending) {
    call.seen <= |written| && call.read == Total(written[..call.seen])
  }

  ghost predicate Traced(s: Store) {
    Exact(s) && forall call | call in s.pending :: TracedCall(s.written, s.pending[call])
  }

  predicate AtMost(a: Usage, b: Usage) {
    a.tokens <= b.tokens && a.usd <= b.usd && a.milliseconds <= b.milliseconds
  }

  lemma PlusNothing(a: Usage, b: Usage, more: Usage)
    requires AtMost(a, b)
    ensures AtMost(a, b.Plus(more))
    ensures a == b.Plus(more) <==> a == b && more == NOTHING
  {
  }

  lemma UnusedNext(steps: seq<Step>, step: Step, from: nat)
    requires from <= |steps|
    ensures Unused(steps + [step], from) <==> Unused(steps, from) && UsageOf(step) == NOTHING
  {
    var longer := steps + [step];
    assert longer[|steps|] == step && forall i | from <= i < |steps| :: longer[i] == steps[i];
  }

  /** A sum stays what it was exactly when nothing is added. */
  lemma {:induction false} TotalStays(steps: seq<Step>, more: seq<Step>)
    ensures AtMost(Total(steps), Total(steps + more))
    ensures Total(steps) == Total(steps + more) <==> Unused(steps + more, |steps|)
  {
    if more == [] {
      assert steps + more == steps;
    } else {
      var init, last := more[..|more| - 1], more[|more| - 1];
      assert steps + more == steps + init + [last];
      TotalStays(steps, init);
      TotalNext(steps + init, last);
      UnusedNext(steps + init, last, |steps|);
      PlusNothing(Total(steps), Total(steps + init), UsageOf(last));
    }
  }

  /** A write keeps the sum exactly when nothing was used since its call has read. */
  lemma WriteIsExact(s: Store, call: nat)
    requires Traced(s) && call in s.pending
    ensures Exact(Next(s, Write(call))) <==> Undisturbed(s, Write(call))
  {
    var written, pending := s.written, s.pending[call];
    assert TracedCall(written, pending);
    assert written == written[..pending.seen] + written[pending.seen..];
    TotalStays(written[..pending.seen], written[pending.seen..]);
    TotalNext(written, pending.step);
    PlusAlike(pending.read, Total(written), UsageOf(pending.step));
  }

  lemma PlusAlike(a: Usage, b: Usage, more: Usage)
    ensures a.Plus(more) == b.Plus(more) <==> a == b
  {
  }

  lemma ReadTraced(s: Store, call: nat, step: Step)
    requires Traced(s)
    ensures Traced(Next(s, Read(call, step)))
  {
    assert s.written[..|s.written|] == s.written;
  }

  lemma TracedLonger(written: seq<Step>, step: Step, call: Pending)
    requires TracedCall(written, call)
    ensures TracedCall(written + [step], call)
  {
    assert (written + [step])[..call.seen] == written[..call.seen];
  }

  lemma WriteTraced(s: Store, call: nat)
    requires Traced(s) && call in s.pending
    requires Exact(Next(s, Write(call)))
    ensures Traced(Next(s, Write(call)))
  {
    var t := Next(s, Write(call));
    forall other | other in t.pending ensures TracedCall(t.written, t.pending[other]) {
      TracedLonger(s.written, s.pending[call].step, s.pending[other]);
    }
  }

  lemma TracedNext(s: Store, action: Action)
    requires Traced(s) && Exact(Next(s, action))
    ensures Traced(Next(s, action))
  {
    match action
    case Read(call, step) => ReadTraced(s, call, step);
    case Write(call) => if call in s.pending { WriteTraced(s, call); }
  }

  lemma StepIsExact(s: Store, action: Action)
    requires Traced(s)
    ensures Exact(Next(s, action)) <==> Undisturbed(s, action)
    ensures Undisturbed(s, action) ==> Traced(Next(s, action))
  {
    if action.Write? && action.call in s.pending {
      WriteIsExact(s, action.call);
    }
    if Exact(Next(s, action)) {
      TracedNext(s, action);
    }
  }

  lemma AlwaysExactNext(actions: seq<Action>)
    requires actions != []
    ensures AlwaysExact(actions) <==> AlwaysExact(actions[..|actions| - 1]) && Exact(Run(actions))
  {
    var earlier := actions[..|actions| - 1];
    assert actions[..|actions|] == actions;
    assert forall n | 0 <= n < |actions| :: earlier[..n] == actions[..n];
    if AlwaysExact(actions) {
      forall n | 0 <= n <= |earlier| ensures Exact(Run(earlier[..n])) {
        assert earlier[..n] == actions[..n];
      }
    }
  }

  /** The sum is exact after every step of a run exactly when no call lost what another wrote. */
  lemma {:induction false} SumIsExact(actions: seq<Action>)
    ensures AlwaysExact(actions) <==> NoOverlap(actions)
    ensures NoOverlap(actions) ==> Traced(Run(actions))
  {
    if actions == [] {
      assert forall n | 0 <= n <= |actions| :: actions[..n] == [];
    } else {
      var earlier := actions[..|actions| - 1];
      SumIsExact(earlier);
      AlwaysExactNext(actions);
      if NoOverlap(earlier) {
        StepIsExact(Run(earlier), actions[|actions| - 1]);
      }
    }
  }

  /** Overlapping calls lose a step: both read the same row and the later write wins, which can even
      take back a stop that has been decided. */
  lemma OverlapLosesAStep(large: Step, small: Step, budget: Budget)
    requires Stops(UsageOf(large), budget) && !Stops(UsageOf(small), budget)
    ensures var actions := [Read(0, large), Read(1, small), Write(0)];
            && Stops(Run(actions).usage, budget)
            && Run(actions + [Write(1)]).usage == UsageOf(small)
            && !Stops(Run(actions + [Write(1)]).usage, budget)
  {
    var one: seq<Action> := [Read(0, large)];
    var two := one + [Read(1, small)];
    var three := two + [Write(0)];
    assert one[..0] == [] && two[..1] == one && three[..2] == two && (three + [Write(1)])[..3] == three;
    assert three == [Read(0, large), Read(1, small), Write(0)];
    assert Run([]) == Store(NOTHING, map[], []);
    assert Run(one) == Next(Run([]), Read(0, large));
    assert Run(two) == Next(Run(one), Read(1, small));
    assert Run(three) == Next(Run(two), Write(0));
    assert Run(three + [Write(1)]) == Next(Run(three), Write(1));
    assert NOTHING.Plus(UsageOf(large)) == UsageOf(large) && NOTHING.Plus(UsageOf(small)) == UsageOf(small);
  }

  // ---- the row ---------------------------------------------------------------------------------------

  datatype Verdict = Verdict(stop: bool, overrun: Usage)

  /** The row of one child, to which its steps are reported. */
  class ChildRow {
    const budget: Budget
    var usage: Usage
    /** The calls that have read the row and not written it, and the steps written so far. */
    ghost var pending: map<nat, Pending>
    ghost var written: seq<Step>

    ghost function Value(): Store
      reads this
    {
      Store(usage, pending, written)
    }

    constructor (budget: Budget)
      ensures this.budget == budget && Value() == Run([])
    {
      this.budget, usage, pending, written := budget, NOTHING, map[], [];
    }

    /** `recordStepUsage` up to its first `await`: a step that cannot be measured is refused; of any
        other the new usage and what follows from it are computed from the row as it is now. */
    method BeginStep(ghost call: nat, step: Step) returns (verdict: Option<Verdict>, next: Usage)
      modifies this`pending
      ensures verdict.Some? <==> Measurable(budget, step)
      ensures Value() == if verdict.Some? then Next(old(Value()), Read(call, step)) else old(Value())
      ensures verdict.Some? ==>
                next == usage.Plus(UsageOf(step)) && verdict.value == Verdict(Stops(next, budget), Overrun(next, budget))
    {
      next := usage;
      if budget.tokens.Some? && step.tokens.None? {
        return None, next;
      }
      if budget.usd.Some? && step.usd.None? {
        return None, next;
      }
      next := usage.Plus(UsageOf(step));
      var overrun := Overrun(next, budget);
      var stop := Stops(next, budget);
      pending := pending[call := Pending(step, usage, |written|)];
      verdict := Some(Verdict(stop, overrun));
    }

    /** The transaction: the row becomes what was computed, whatever it holds by now. */
    method EndStep(ghost call: nat, next: Usage)
      requires call in pending && next == pending[call].read.Plus(UsageOf(pending[call].step))
      modifies this`usage, this`pending, this`written
      ensures Value() == Next(old(Value()), Write(call))
    {
      usage := next;
      written := written + [pending[call].step];
      pending := pending - {call};
    }

    /** A call that no other overlaps: what is stored is the sum of all the steps, and the verdict is
        that of the sum. */
    method RecordStepUsage(step: Step) returns (verdict: Option<Verdict>)
      requires usage == Total(written) && pending == map[]
      modifies this
      ensures usage == Total(written) && pending == map[]
      ensures verdict.Some? <==> Measurable(budget, step)
      ensures written == if verdict.Some? then old(written) + [step] else old(written)
      ensures verdict.Some? ==> verdict.value == Verdict(Stops(Total(written), budget), Overrun(Total(written), budget))
    {
      var next: Usage;
      verdict, next := BeginStep(0, step);
      if verdict.Some? {
        TotalNext(written, step);
        EndStep(0, next);
      }
    }
  }
}
