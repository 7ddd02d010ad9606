// What every run of the durable operation protocol keeps to
// (packages/core/examples/tools/durable-async-operation-harness.ts).
module DurableSafety {
  import opened DurableOperation
  import opened DurableSteps

  lemma {:induction false} RunKeeps(actions: seq<Action>)
    ensures Inv(Run(INIT, actions))
  {
    if actions != [] {
      RunKeeps(actions[..|actions| - 1]);
      NextKeeps(Run(INIT, actions[..|actions| - 1]), actions[|actions| - 1]);
    }
  }

  ghost function SubmissionsOf(s: State, operationId: string): set<nat> {
    set i: nat | i < |s.submissions| && s.submissions[i].request.operationId == operationId
  }

  /** At most one submission per operation, whatever interleaves, and none before the stored record
      says the operation is possibly dispatched, under the very effect key that was submitted. */
  lemma AtMostOneEffect(actions: seq<Action>, operationId: string)
    ensures var s := Run(INIT, actions);
            && |SubmissionsOf(s, operationId)| <= 1
            && (forall i | i in SubmissionsOf(s, operationId) ::
                  operationId in s.store && s.store[operationId].dispatch != NotDispatched
                  && s.submissions[i].effectKey.Some? && s.submissions[i].effectKey == s.store[operationId].effectKey
                  && s.submissions[i].request == s.store[operationId].request)
            && (operationId in s.store && s.store[operationId].phase == Pending ==> SubmissionsOf(s, operationId) == {})
  {
    RunKeeps(actions);
    var s := Run(INIT, actions);
    var all := SubmissionsOf(s, operationId);
    if all != {} {
      var i :| i in all;
      assert forall j | j in all :: j == i;
      assert all == {i};
    }
  }

  /** The call itself: in the state that submits, the marked record is already durable. */
  lemma SubmitAfterDurable(actions: seq<Action>, id: nat)
    ensures var s := Run(INIT, actions);
            var s' := Next(s, Resume(id, Submit));
            s'.submissions != s.submissions ==>
              var submitted := s'.submissions[|s.submissions|];
              && |s'.submissions| == |s.submissions| + 1
              && submitted.request.operationId in s.store
              && s.store[submitted.request.operationId].dispatch != NotDispatched
              && s.store[submitted.request.operationId].phase != Pending
  {
    RunKeeps(actions);
  }

  /** Only the action that submits adds a submission. */
  lemma OnlySubmitSubmits(s: State, action: Action)
    requires !(action.Resume? && action.stretch == Submit)
    ensures Next(s, action).submissions == s.submissions
  {
  }

  /** Stored records only move forward along a run: revisions by one, dispatch never back, never
      back to pending, a cancel request never withdrawn, the effect key never replaced. */
  lemma RecordsMoveForward(actions: seq<Action>, action: Action)
    ensures var s := Run(INIT, actions); StoreAdvances(s, Next(s, action))
  {
    RunKeeps(actions);
    NextKeeps(Run(INIT, actions), action);
  }

  /** In every reachable store pending means not dispatched, and a settled operation is
      acknowledged and holds a receipt. */
  lemma SettledHoldsReceipt(actions: seq<Action>, operationId: string)
    requires operationId in Run(INIT, actions).store
    ensures var record := Run(INIT, actions).store[operationId];
            && (record.phase == Pending <==> record.dispatch == NotDispatched)
            && (record.phase in {Succeeded, Failed} ==> record.dispatch == Acknowledged && record.receiptId.Some?)
            && record.phase != Cancelled
  {
    RunKeeps(actions);
  }
}
