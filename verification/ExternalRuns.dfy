// What the writes of the outbox put on record, where receipts come from, and what a pump or a reconciliation
// achieves that nothing disturbs (packages/core/examples/agent-runtime/external-channel-harness.ts).
module ExternalRuns {
  import opened Prelude
  import opened ExternalOutbox

  /** What was fixed when the delivery was enqueued. */
  ghost predicate SameDelivery(before: Record, after: Record) {
    after.deliveryId == before.deliveryId && after.eventKey == before.eventKey && after.facts == before.facts
  }

  ghost predicate Marks(before: Record, after: Record, attemptId: string) {
    && SameDelivery(before, after) && after.revision == before.revision + 1
    && after.state == PossiblyDispatched && after.attemptId == Some(attemptId) && after.receiptId == before.receiptId
  }

  ghost predicate Receipts(before: Record, after: Record, receiptId: string) {
    && SameDelivery(before, after) && after.revision == before.revision + 1
    && after.state == Acknowledged && after.receiptId == Some(receiptId) && after.attemptId == before.attemptId
  }

  /** One delivery alone has changed. */
  ghost predicate Rewrites(s: State, s': State, deliveryId: string) {
    && s'.store.Keys == s.store.Keys && deliveryId in s.store
    && forall other | other in s.store && other != deliveryId :: s'.store[other] == s.store[other]
  }

  // ---- the three writes -------------------------------------------------------------------------

  /** The mark is made exactly when nobody has written since the delivery was fetched; the pump then sends what
      is stored, and goes back for the next delivery otherwise. */
  lemma MarkIsRecorded(s: State, id: nat)
    requires Inv(s) && id in s.pumps && s.pumps[id].1.Marking?
    ensures var (record, attemptId, s') := (s.pumps[id].1.record, s.pumps[id].1.attemptId, Next(s, Resume(id, Mark)));
            var d := record.deliveryId;
            && s'.pumps.Keys == s.pumps.Keys && s'.sends == s.sends
            && if s.store[d].revision == record.revision then
                 && Rewrites(s, s', d) && Marks(s.store[d], s'.store[d], attemptId)
                 && s'.pumps[id] == (s.pumps[id].0, ReadyToSend(s'.store[d]))
               else s'.store == s.store && s'.pumps[id] == (s.pumps[id].0, Fetching)
  {
  }

  lemma ReceiptIsRecorded(s: State, id: nat)
    requires Inv(s) && id in s.pumps && s.pumps[id].1.Acknowledging?
    ensures var (prepared, receiptId) := (s.pumps[id].1.prepared, s.pumps[id].1.receiptId);
            var s' := Next(s, Resume(id, Acknowledge));
            var d := prepared.deliveryId;
            && s'.pumps.Keys == s.pumps.Keys && s'.pumps[id] == (s.pumps[id].0, Fetching) && s'.sends == s.sends
            && if s.store[d].revision == prepared.revision then
                 Rewrites(s, s', d) && Receipts(s.store[d], s'.store[d], receiptId)
               else s'.store == s.store
  {
  }

  lemma ReconciliationIsRecorded(s: State, id: nat)
    requires Inv(s) && id in s.reconcilers && s.reconcilers[id].Settling?
    ensures var Settling(record, receiptId, todo) := s.reconcilers[id];
            var s', d := Next(s, SettleReconciled(id)), record.deliveryId;
            && s'.reconcilers == s.reconcilers[id := Asking(todo)] && s'.sends == s.sends
            && if s.store[d].revision == record.revision then
                 Rewrites(s, s', d) && Receipts(s.store[d], s'.store[d], receiptId)
               else s'.store == s.store
  {
  }

  // ---- every step ---------------------------------------------------------------------------------

  /** What a step tries to put on record: an attempt, or a receipt. */
  datatype Trial = NoTrial | Attempt(attemptId: string) | Receipt(deliveryId: string, receiptId: string)

  ghost function Tried(s: State, action: Action): Trial {
    match action
    case Resume(id, stretch) =>
      if id !in s.pumps then NoTrial
      else (match (stretch, s.pumps[id].1)
        case (Mark, Marking(_, attemptId)) => Attempt(attemptId)
        case (Acknowledge, Acknowledging(prepared, receiptId)) => Receipt(prepared.deliveryId, receiptId)
        case _ => NoTrial)
    case SettleReconciled(id) =>
      if id in s.reconcilers && s.reconcilers[id].Settling?
      then Receipt(s.reconcilers[id].record.deliveryId, s.reconcilers[id].receiptId) else NoTrial
    case _ => NoTrial
  }

  ghost predicate Patched(before: Record, after: Record, trial: Trial) {
    || after == before
    || (trial.Attempt? && before.state == NotDispatched && Marks(before, after, trial.attemptId))
    || (trial.Receipt? && trial.deliveryId == before.deliveryId && before.state == PossiblyDispatched
        && Receipts(before, after, trial.receiptId))
  }

  ghost predicate Patches(s: State, s': State, trial: Trial) {
    && (forall d | d in s.store :: d in s'.store && Patched(s.store[d], s'.store[d], trial))
    && (forall d | d in s'.store && d !in s.store ::
          var record := s'.store[d];
          record.state == NotDispatched && record.attemptId.None? && record.receiptId.None? && record.revision == 0)
  }

  lemma PumpPatches(s: State, id: nat, stretch: Stretch)
    requires Inv(s) && id in s.pumps
    ensures Patches(s, Next(s, Resume(id, stretch)), Tried(s, Resume(id, stretch)))
  {
    var s' := Next(s, Resume(id, stretch));
    if s'.store != s.store {
      if stretch == Mark {
        MarkIsRecorded(s, id);
      } else if stretch == Acknowledge {
        ReceiptIsRecorded(s, id);
      } else {
        OthersOnlyRead(s, id, stretch);
      }
    }
  }

  lemma OthersOnlyRead(s: State, id: nat, stretch: Stretch)
    requires id in s.pumps && stretch != Mark && stretch != Acknowledge
    ensures Next(s, Resume(id, stretch)).store == s.store
  {
  }

  lemma NextPatches(s: State, action: Action)
    requires Inv(s)
    ensures Patches(s, Next(s, action), Tried(s, action))
  {
    match action
    case Resume(id, stretch) => if id in s.pumps { PumpPatches(s, id, stretch); }
    case SettleReconciled(id) =>
      if id in s.reconcilers && s.reconcilers[id].Settling? { ReconciliationIsRecorded(s, id); }
    case Enqueue(_, _, _) =>
    case _ => assert Next(s, action).store == s.store;
  }

  /** A delivery has an attempt once it was marked, and a receipt once it was acknowledged. */
  ghost predicate Tells(record: Record) {
    && (record.state == NotDispatched <==> record.attemptId.None?)
    && (record.state == Acknowledged <==> record.receiptId.Some?)
  }

  lemma {:induction false} RecordTellsState(actions: seq<Action>, deliveryId: string)
    requires deliveryId in Run(INIT, actions).store
    ensures Tells(Run(INIT, actions).store[deliveryId])
  {
    if actions != [] {
      var before, action := Run(INIT, actions[..|actions| - 1]), actions[|actions| - 1];
      RunKeeps(actions[..|actions| - 1]);
      NextPatches(before, action);
      if deliveryId in before.store {
        RecordTellsState(actions[..|actions| - 1], deliveryId);
      }
    }
  }

  // ---- where receipts come from ---------------------------------------------------------------------

  /** A receipt that this step hears from the adapter, for the delivery it was asked about. */
  ghost function Heard(s: State, action: Action): set<(string, string)> {
    match action
    case Resume(id, Sent(receiptId)) =>
      if id in s.pumps && s.pumps[id].1.Sending? then {(s.pumps[id].1.prepared.deliveryId, receiptId)} else {}
    case Reconciled(id, Some(receiptId)) =>
      if id in s.reconcilers && s.reconcilers[id].Asking? && s.reconcilers[id].todo != []
      then {(s.reconcilers[id].todo[0].deliveryId, receiptId)} else {}
    case _ => {}
  }

  ghost function AllHeard(actions: seq<Action>): set<(string, string)> {
    if actions == [] then {}
    else AllHeard(actions[..|actions| - 1]) + Heard(Run(INIT, actions[..|actions| - 1]), actions[|actions| - 1])
  }

  /** Every receipt that is stored, or about to be, was heard for that very delivery. */
  ghost predicate Faithful(s: State, heard: set<(string, string)>) {
    && (forall d | d in s.store && s.store[d].receiptId.Some? :: (d, s.store[d].receiptId.value) in heard)
    && (forall id | id in s.pumps && s.pumps[id].1.Acknowledging? ::
          (s.pumps[id].1.prepared.deliveryId, s.pumps[id].1.receiptId) in heard)
    && (forall id | id in s.reconcilers && s.reconcilers[id].Settling? ::
          (s.reconcilers[id].record.deliveryId, s.reconcilers[id].receiptId) in heard)
  }

  lemma StoreStaysFaithful(s: State, s': State, trial: Trial, heard: set<(string, string)>)
    requires StoreOk(s) && Patches(s, s', trial)
    requires forall d | d in s.store && s.store[d].receiptId.Some? :: (d, s.store[d].receiptId.value) in heard
    requires trial.Receipt? ==> (trial.deliveryId, trial.receiptId) in heard
    ensures forall d | d in s'.store && s'.store[d].receiptId.Some? :: (d, s'.store[d].receiptId.value) in heard
  {
  }

  lemma ActorsStayFaithful(s: State, action: Action, heard: set<(string, string)>)
    requires Faithful(s, heard)
    ensures var s', more := Next(s, action), heard + Heard(s, action);
            && (forall id | id in s'.pumps && s'.pumps[id].1.Acknowledging? ::
                  (s'.pumps[id].1.prepared.deliveryId, s'.pumps[id].1.receiptId) in more)
            && (forall id | id in s'.reconcilers && s'.reconcilers[id].Settling? ::
                  (s'.reconcilers[id].record.deliveryId, s'.reconcilers[id].receiptId) in more)
  {
  }

  lemma {:induction false} RunIsFaithful(actions: seq<Action>)
    ensures Faithful(Run(INIT, actions), AllHeard(actions))
  {
    if actions != [] {
      var init, action := actions[..|actions| - 1], actions[|actions| - 1];
      var before := Run(INIT, init);
      RunIsFaithful(init);
      RunKeeps(init);
      NextPatches(before, action);
      StoreStaysFaithful(before, Next(before, action), Tried(before, action), AllHeard(init));
      ActorsStayFaithful(before, action, AllHeard(init));
    }
  }

  /** A stored receipt is one the adapter gave for this delivery, when it sent it or when it was asked. */
  lemma ReceiptsWereHeard(actions: seq<Action>, deliveryId: string)
    requires deliveryId in Run(INIT, actions).store && Run(INIT, actions).store[deliveryId].state == Acknowledged
    ensures var record := Run(INIT, actions).store[deliveryId];
            record.receiptId.Some? && (deliveryId, record.receiptId.value) in AllHeard(actions)
  {
    RunIsFaithful(actions);
    RecordTellsState(actions, deliveryId);
  }

  // ---- undisturbed runs -------------------------------------------------------------------------------

  lemma RunsTwo(s: State, first: Action, second: Action)
    ensures Run(s, [first, second]) == Next(Next(s, first), second)
  {
    assert [first, second][..1] == [first] && [first][..0] == [];
    assert Run(s, []) == s;
    assert Run(s, [first]) == Next(s, first);
  }

  lemma {:induction false} RunJoined(s: State, before: seq<Action>, behind: seq<Action>)
    ensures Run(s, before + behind) == Run(Run(s, before), behind)
  {
    var whole := before + behind;
    if behind == [] {
      assert whole == before;
    } else {
      assert whole[..|whole| - 1] == before + behind[..|behind| - 1];
      RunJoined(s, before, behind[..|behind| - 1]);
    }
  }

  lemma {:induction false} RunOnKeeps(s: State, actions: seq<Action>)
    requires Inv(s)
    ensures Inv(Run(s, actions))
  {
    if actions != [] {
      RunOnKeeps(s, actions[..|actions| - 1]);
      NextKeeps(Run(s, actions[..|actions| - 1]), actions[|actions| - 1]);
    }
  }

  function Preparing(id: nat, record: Record, attemptId: string): seq<Action> {
    [Resume(id, Fetch(record, attemptId)), Resume(id, Mark)]
  }

  function Delivering(id: nat, receiptId: string): seq<Action> {
    [Resume(id, Send), Resume(id, Sent(receiptId))]
  }

  /** A pump that fetches a delivery marks it. */
  lemma FetchedIsMarked(s: State, id: nat, d: string, attemptId: string)
    requires Inv(s) && id in s.pumps && s.pumps[id].1.Fetching? && d in s.store && s.store[d].state == NotDispatched
    ensures var s' := Run(s, Preparing(id, s.store[d], attemptId));
            && Rewrites(s, s', d) && Marks(s.store[d], s'.store[d], attemptId) && s'.sends == s.sends
            && id in s'.pumps && s'.pumps[id] == (s.pumps[id].0, ReadyToSend(s'.store[d]))
  {
    var fetch := Resume(id, Fetch(s.store[d], attemptId));
    var fetched := SetPump(s, id, Marking(s.store[d], attemptId));
    assert Next(s, fetch) == fetched;
    assert Inv(fetched) by { NextKeeps(s, fetch); }
    MarkIsRecorded(fetched, id);
    RunsTwo(s, fetch, Resume(id, Mark));
  }

  lemma SentIsRemembered(s: State, id: nat, receiptId: string)
    requires id in s.pumps && s.pumps[id].1.ReadyToSend?
    ensures var s', prepared := Run(s, Delivering(id, receiptId)), s.pumps[id].1.prepared;
            && s'.store == s.store && s'.sends == s.sends + [prepared]
            && id in s'.pumps && s'.pumps[id] == (s.pumps[id].0, Acknowledging(prepared, receiptId))
  {
    RunsTwo(s, Resume(id, Send), Resume(id, Sent(receiptId)));
  }

  /** Undisturbed, a pump marks the delivery it has fetched, sends it once under this attempt, puts the receipt
      on record and goes back for the next one. */
  lemma PumpDelivers(s: State, id: nat, d: string, attemptId: string, receiptId: string)
    requires Inv(s) && id in s.pumps && s.pumps[id].1.Fetching? && d in s.store && s.store[d].state == NotDispatched
    ensures var s' := Next(Run(s, Preparing(id, s.store[d], attemptId) + Delivering(id, receiptId)), Resume(id, Acknowledge));
            && id in s'.pumps && s'.pumps[id].1 == Fetching && d in s'.store
            && exists marked :: Marks(s.store[d], marked, attemptId) && Receipts(marked, s'.store[d], receiptId)
                                && s'.sends == s.sends + [marked]
  {
    var ready := Run(s, Preparing(id, s.store[d], attemptId));
    var sent := Run(ready, Delivering(id, receiptId));
    RunJoined(s, Preparing(id, s.store[d], attemptId), Delivering(id, receiptId));
    FetchedIsMarked(s, id, d, attemptId);
    SentIsRemembered(ready, id, receiptId);
    assert Inv(sent) by { RunOnKeeps(s, Preparing(id, s.store[d], attemptId) + Delivering(id, receiptId)); }
    ReceiptIsRecorded(sent, id);
  }

  /** A flush begins a pump where none runs; it ends when nothing is left to fetch, or behind an error. */
  lemma FlushBegins(s: State, harness: nat)
    requires Inv(s)
    ensures var s' := Next(s, Flush(harness));
            if harness in s.pumping then s' == s
            else
              && s'.pumping == s.pumping[harness := s.nextId]
              && s.nextId in s'.pumps && s'.pumps[s.nextId] == (harness, Fetching) && s'.store == s.store
  {
  }

  /** What is enqueued is new, or the store knows its event and stays as it is. */
  lemma EnqueueIsStored(s: State, deliveryId: string, eventKey: string, facts: string)
    requires deliveryId !in s.store
    ensures var s' := Next(s, Enqueue(deliveryId, eventKey, facts));
            if exists other :: other in s.store && s.store[other].eventKey == eventKey then s' == s
            else
              && deliveryId in s'.store && s'.store - {deliveryId} == s.store && s'.pumps == s.pumps && s'.sends == s.sends
              && var record := s'.store[deliveryId];
                 && record.deliveryId == deliveryId && record.eventKey == eventKey && record.facts == facts
                 && record.state == NotDispatched && record.revision == 0 && record.attemptId.None? && record.receiptId.None?
  {
  }

  /** A harness that dies takes its pump along and nothing else; the next one may flush. */
  lemma DeathStops(s: State, harness: nat)
    ensures var s' := Next(s, Die(harness));
            && s'.store == s.store && s'.sends == s.sends && harness !in s'.pumping
            && (forall id :: id in s'.pumps <==> id in s.pumps && s.pumps[id].0 != harness)
            && (forall id | id in s'.pumps :: s'.pumps[id] == s.pumps[id])
            && forall other | other in s.pumping && other != harness ::
                 other in s'.pumping && s'.pumping[other] == s.pumping[other]
  {
  }

  lemma PumpEnds(s: State, id: nat)
    requires Inv(s) && id in s.pumps
    ensures s.pumps[id].1.Fetching? ==> s.pumps[id].0 !in Next(s, Resume(id, FetchNone)).pumping
    ensures var failed := Next(s, Resume(id, Fail));
            && failed.store == s.store && failed.sends == s.sends && failed.pumping == s.pumping
            && s.pumps[id].0 !in Next(failed, Resume(id, Finish)).pumping
  {
  }

  /** A reconciliation asks about one delivery after the other and puts on record what the adapter knows. */
  lemma ReconciliationAsks(s: State, id: nat, receiptId: Option<string>)
    requires id in s.reconcilers && s.reconcilers[id].Asking?
    ensures var todo, s' := s.reconcilers[id].todo, Next(s, Reconciled(id, receiptId));
            && s'.store == s.store && s'.sends == s.sends
            && if todo == [] then id !in s'.reconcilers
               else
                 && id in s'.reconcilers
                 && s'.reconcilers[id] ==
                      if receiptId.Some? && todo[0].attemptId.Some? then Settling(todo[0], receiptId.value, todo[1..])
                      else Asking(todo[1..])
  {
  }

  /** So a delivery that was sent and never acknowledged is settled without being sent again. */
  lemma ReconciliationSettles(s: State, d: string, receiptId: string)
    requires Inv(s) && d in s.store && s.store[d].state == PossiblyDispatched && s.store[d].attemptId.Some?
    ensures var id, s1 := s.nextId, Next(s, Reconcile([s.store[d]]));
            var s' := Run(s1, [Reconciled(id, Some(receiptId)), SettleReconciled(id)]);
            Rewrites(s, s', d) && Receipts(s.store[d], s'.store[d], receiptId) && s'.sends == s.sends
  {
    var id, record := s.nextId, s.store[d];
    var s1 := Next(s, Reconcile([record]));
    assert s1.reconcilers == s.reconcilers[id := Asking([record])] && s1.store == s.store && s1.sends == s.sends;
    ReconciliationAsks(s1, id, Some(receiptId));
    var s2 := Next(s1, Reconciled(id, Some(receiptId)));
    assert Inv(s2) by {
      NextKeeps(s, Reconcile([record]));
      NextKeeps(s1, Reconciled(id, Some(receiptId)));
    }
    ReconciliationIsRecorded(s2, id);
    RunsTwo(s1, Reconciled(id, Some(receiptId)), SettleReconciled(id));
  }
}
