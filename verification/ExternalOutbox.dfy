// The external channel's outbox (external-channel-harness.ts): any number of harnesses share
// one store that honours revision compare-and-swap, each pumping ready deliveries to an
// external adapter. One action is one stretch between two awaits; a run is any sequence.
module ExternalOutbox {
  import opened Prelude

  datatype DispatchState = NotDispatched | PossiblyDispatched | Acknowledged {
    function Rank(): nat {
      match this case NotDispatched => 0 case PossiblyDispatched => 1 case Acknowledged => 2
    }
  }

  /** `facts` stands for conversation, run, reply target, event and ordinal, fixed when enqueued. */
  datatype Record = Record(
    deliveryId: string,
    eventKey: string,
    facts: string,
    revision: nat,
    state: DispatchState,
    attemptId: Option<string>,
    receiptId: Option<string>)

  function Marked(record: Record, attemptId: string): Record {
    record.(revision := record.revision + 1, state := PossiblyDispatched, attemptId := Some(attemptId))
  }

  function Receipted(record: Record, receiptId: string): Record {
    record.(revision := record.revision + 1, state := Acknowledged, receiptId := Some(receiptId))
  }

  /** Where one pump of a harness waits. `Failing` has met an error and reports it. */
  datatype Pump =
    | Fetching
    | Marking(record: Record, attemptId: string)
    | ReadyToSend(prepared: Record)
    | Sending(prepared: Record)
    | Acknowledging(prepared: Record, receiptId: string)
    | Failing

  /** Where one `reconcile` call waits. */
  datatype Reconciler =
    | Asking(todo: seq<Record>)
    | Settling(record: Record, receiptId: string, todo: seq<Record>)

  /** `pumping` is each live harness's variable; `sends` is the history of adapter sends. */
  datatype State = State(
    store: map<string, Record>,
    pumps: map<nat, (nat, Pump)>,
    pumping: map<nat, nat>,
    reconcilers: map<nat, Reconciler>,
    nextId: nat,
    sends: seq<Record>)

  const INIT := State(map[], map[], map[], map[], 0, [])

  predicate CanSwap(store: map<string, Record>, deliveryId: string, expected: nat) {
    deliveryId in store && store[deliveryId].revision == expected
  }

  /** `markPossiblyDispatched` and `acknowledge`: a transition of the stored record, by revision. */
  function Swapped(store: map<string, Record>, expected: nat, next: Record): map<string, Record> {
    if CanSwap(store, next.deliveryId, expected) then store[next.deliveryId := next] else store
  }

  datatype Stretch =
    | FetchNone
    | Fetch(record: Record, attemptId: string)
    | Mark
    | Send
    | Sent(receiptId: string)
    | Acknowledge
    | Fail
    | Finish

  datatype Action =
    | Enqueue(deliveryId: string, eventKey: string, facts: string)
    | Flush(harness: nat)
    | Resume(pump: nat, stretch: Stretch)
    | Reconcile(uncertain: seq<Record>)
    | Reconciled(id: nat, receiptId: Option<string>)
    | SettleReconciled(id: nat)
    | Die(harness: nat)

  function SetPump(s: State, id: nat, pump: Pump): State
    requires id in s.pumps
  {
    s.(pumps := s.pumps[id := (s.pumps[id].0, pump)])
  }

  function EndPump(s: State, id: nat): State
    requires id in s.pumps
  {
    s.(pumps := s.pumps - {id}, pumping := s.pumping - {s.pumps[id].0})
  }

  /** The write that marks a fetched delivery; whoever loses it goes back for the next one. */
  function DoMark(s: State, id: nat): State
    requires id in s.pumps && s.pumps[id].1.Marking?
  {
    var record, next := s.pumps[id].1.record, Marked(s.pumps[id].1.record, s.pumps[id].1.attemptId);
    SetPump(WithStore(s, Swapped(s.store, record.revision, next)), id,
            if CanSwap(s.store, record.deliveryId, record.revision) then ReadyToSend(next) else Fetching)
  }

  function DoSend(s: State, id: nat): State
    requires id in s.pumps && s.pumps[id].1.ReadyToSend?
  {
    SetPump(s.(sends := s.sends + [s.pumps[id].1.prepared]), id, Sending(s.pumps[id].1.prepared))
  }

  function DoAcknowledge(s: State, id: nat): State
    requires id in s.pumps && s.pumps[id].1.Acknowledging?
  {
    var prepared := s.pumps[id].1.prepared;
    SetPump(WithStore(s, Swapped(s.store, prepared.revision, Receipted(prepared, s.pumps[id].1.receiptId))), id, Fetching)
  }

  function WithStore(s: State, store: map<string, Record>): State {
    s.(store := store)
  }

  /** `deliverOne` inside the loop of `runPump`, stretch by stretch. */
  function Pumped(s: State, id: nat, stretch: Stretch): State
    requires id in s.pumps
  {
    match (stretch, s.pumps[id].1)
    case (FetchNone, Fetching) => EndPump(s, id)
    case (Fetch(record, attemptId), Fetching) =>
      if record.deliveryId in s.store && s.store[record.deliveryId] == record && record.state == NotDispatched
      then SetPump(s, id, Marking(record, attemptId)) else s
    case (Mark, Marking(_, _)) => DoMark(s, id)
    case (Send, ReadyToSend(_)) => DoSend(s, id)
    case (Sent(receiptId), Sending(prepared)) => SetPump(s, id, Acknowledging(prepared, receiptId))
    case (Acknowledge, Acknowledging(_, _)) => DoAcknowledge(s, id)
    case (Fail, _) => SetPump(s, id, Failing)
    case (Finish, Failing) => EndPump(s, id)
    case _ => s
  }

  function DoSettle(s: State, id: nat): State
    requires id in s.reconcilers && s.reconcilers[id].Settling?
  {
    var Settling(record, receiptId, todo) := s.reconcilers[id];
    s.(store := Swapped(s.store, record.revision, Receipted(record, receiptId)),
       reconcilers := s.reconcilers[id := Asking(todo)])
  }

  /** No pump runs for the harness: one is begun, and the harness remembers it. */
  function DoFlush(s: State, harness: nat): State {
    s.(pumping := s.pumping[harness := s.nextId], pumps := s.pumps[s.nextId := (harness, Fetching)],
       nextId := s.nextId + 1)
  }

  function Next(s: State, action: Action): State {
    match action
    case Enqueue(deliveryId, eventKey, facts) =>
      if deliveryId in s.store || exists id | id in s.store :: s.store[id].eventKey == eventKey then s
      else s.(store := s.store[deliveryId := Record(deliveryId, eventKey, facts, 0, NotDispatched, None, None)])
    case Flush(harness) =>
      if harness in s.pumping then s else DoFlush(s, harness)
    case Resume(pump, stretch) => if pump in s.pumps then Pumped(s, pump, stretch) else s
    case Reconcile(uncertain) =>
      if forall record | record in uncertain ::
           record.deliveryId in s.store && s.store[record.deliveryId] == record && record.state == PossiblyDispatched
      then s.(reconcilers := s.reconcilers[s.nextId := Asking(uncertain)], nextId := s.nextId + 1) else s
    case Reconciled(id, receiptId) =>
      if id !in s.reconcilers || !s.reconcilers[id].Asking? then s
      else
        var todo := s.reconcilers[id].todo;
        if todo == [] then s.(reconcilers := s.reconcilers - {id})
        else if todo[0].attemptId.None? || receiptId.None? then
          s.(reconcilers := s.reconcilers[id := Asking(todo[1..])])
        else s.(reconcilers := s.reconcilers[id := Settling(todo[0], receiptId.value, todo[1..])])
    case SettleReconciled(id) =>
      if id !in s.reconcilers || !s.reconcilers[id].Settling? then s
      else DoSettle(s, id)
    case Die(harness) =>
      s.(pumps := map id | id in s.pumps && s.pumps[id].0 != harness :: s.pumps[id],
         pumping := s.pumping - {harness})
  }

  function Run(s: State, actions: seq<Action>): State {
    if actions == [] then s else Next(Run(s, actions[..|actions| - 1]), actions[|actions| - 1])
  }

  // ---- the invariant ---------------------------------------------------------------------

  ghost predicate Copy(store: map<string, Record>, record: Record) {
    && record.deliveryId in store
    && var stored := store[record.deliveryId];
       && record.eventKey == stored.eventKey && record.facts == stored.facts
       && record.revision <= stored.revision && record.state.Rank() <= stored.state.Rank()
       && (record.state != NotDispatched ==> record.attemptId == stored.attemptId)
       && (record.revision == stored.revision ==> record == stored)
  }

  ghost predicate WasSent(sends: seq<Record>, deliveryId: string) {
    exists i :: 0 <= i < |sends| && sends[i].deliveryId == deliveryId
  }

  ghost predicate PumpOk(s: State, pump: Pump) {
    match pump
    case Marking(record, _) => Copy(s.store, record) && record.state == NotDispatched
    case ReadyToSend(prepared) =>
      && Copy(s.store, prepared) && prepared.state == PossiblyDispatched && prepared.attemptId.Some?
      && !WasSent(s.sends, prepared.deliveryId)
    case Sending(prepared) => Copy(s.store, prepared) && prepared.state == PossiblyDispatched
    case Acknowledging(prepared, _) => Copy(s.store, prepared) && prepared.state == PossiblyDispatched
    case _ => true
  }

  ghost predicate ReconcilerOk(s: State, reconciler: Reconciler) {
    && (forall record | record in reconciler.todo :: Copy(s.store, record) && record.state == PossiblyDispatched)
    && (reconciler.Settling? ==> Copy(s.store, reconciler.record) && reconciler.record.state == PossiblyDispatched)
  }

  ghost predicate StoreOk(s: State) {
    && (forall id | id in s.store :: s.store[id].deliveryId == id)
    && (forall i, j | i in s.store && j in s.store && s.store[i].eventKey == s.store[j].eventKey :: i == j)
  }

  ghost predicate SendsOk(s: State) {
    && (forall i | 0 <= i < |s.sends| :: Copy(s.store, s.sends[i]) && s.sends[i].state == PossiblyDispatched)
    && (forall i, j | 0 <= i < j < |s.sends| :: s.sends[i].deliveryId != s.sends[j].deliveryId)
  }

  ghost predicate PumpsOk(s: State) {
    && (forall id | id in s.pumps :: id < s.nextId && PumpOk(s, s.pumps[id].1))
    && (forall i, j | i in s.pumps && j in s.pumps && s.pumps[i].1.ReadyToSend? && s.pumps[j].1.ReadyToSend?
          && s.pumps[i].1.prepared.deliveryId == s.pumps[j].1.prepared.deliveryId :: i == j)
  }

  /** The harness variable names the one pump that runs for it, and every pump is so named. */
  ghost predicate PumpingOk(s: State) {
    && (forall harness | harness in s.pumping ::
          s.pumping[harness] in s.pumps && s.pumps[s.pumping[harness]].0 == harness)
    && (forall id | id in s.pumps :: s.pumps[id].0 in s.pumping && s.pumping[s.pumps[id].0] == id)
  }

  ghost predicate Inv(s: State) {
    && StoreOk(s) && SendsOk(s) && PumpsOk(s) && PumpingOk(s)
    && (forall id | id in s.reconcilers :: id < s.nextId && ReconcilerOk(s, s.reconcilers[id]))
  }

  /** What one action may do to the stored deliveries: revisions by one, never back. */
  ghost predicate Advances(before: Record, after: Record) {
    after != before ==>
    && after.revision == before.revision + 1
    && after.deliveryId == before.deliveryId && after.eventKey == before.eventKey && after.facts == before.facts
    && before.state.Rank() < after.state.Rank()
    && (before.state != NotDispatched ==> after.attemptId == before.attemptId)
  }

  ghost predicate StoreAdvances(s: State, s': State) {
    && (forall id | id in s.store :: id in s'.store && Advances(s.store[id], s'.store[id]))
    && (forall id | id in s'.store && id !in s.store :: s'.store[id].state == NotDispatched && s'.store[id].revision == 0)
  }

  // ---- every action keeps it ------------------------------------------------------------------

  /** A change of the store that leaves every copy a copy leaves the rest of the invariant alone. */
  lemma StoreChangeKeeps(s: State, store: map<string, Record>)
    requires Inv(s) && StoreOk(WithStore(s, store))
    requires forall record :: Copy(s.store, record) ==> Copy(store, record)
    ensures Inv(WithStore(s, store))
  {
    var s' := WithStore(s, store);
    forall id | id in s.pumps ensures PumpOk(s', s.pumps[id].1) {
      assert PumpOk(s, s.pumps[id].1);
    }
    forall id | id in s.reconcilers ensures ReconcilerOk(s', s.reconcilers[id]) {
      assert ReconcilerOk(s, s.reconcilers[id]);
    }
    assert SendsOk(s');
  }

  lemma SwapKeeps(s: State, current: Record, next: Record)
    requires Inv(s) && Copy(s.store, current) && Advances(current, next) && next != current
    ensures var s' := WithStore(s, Swapped(s.store, current.revision, next));
            && Inv(s') && StoreAdvances(s, s')
            && (CanSwap(s.store, current.deliveryId, current.revision) ==>
                  s.store[current.deliveryId] == current && Copy(s'.store, next))
  {
    StoreChangeKeeps(s, Swapped(s.store, current.revision, next));
  }

  /** Whether a pump is sound depends on the store and the sends only. */
  lemma PumpOkDependsOn(s: State, s': State)
    requires s.store == s'.store && s.sends == s'.sends
    ensures forall pump :: PumpOk(s, pump) == PumpOk(s', pump)
  {
  }

  lemma SetPumpKeeps(s: State, id: nat, pump: Pump)
    requires Inv(s) && id in s.pumps && PumpOk(s, pump)
    requires pump.ReadyToSend? ==> forall j | j in s.pumps && s.pumps[j].1.ReadyToSend? ::
               s.pumps[j].1.prepared.deliveryId != pump.prepared.deliveryId
    ensures Inv(SetPump(s, id, pump))
  {
    PumpOkDependsOn(s, SetPump(s, id, pump));
  }

  lemma EndPumpKeeps(s: State, id: nat)
    requires Inv(s) && id in s.pumps
    ensures Inv(EndPump(s, id))
  {
    PumpOkDependsOn(s, EndPump(s, id));
  }

  lemma MarkKeeps(s: State, id: nat)
    requires Inv(s) && id in s.pumps && s.pumps[id].1.Marking?
    ensures Inv(DoMark(s, id)) && StoreAdvances(s, DoMark(s, id))
  {
    var record, next := s.pumps[id].1.record, Marked(s.pumps[id].1.record, s.pumps[id].1.attemptId);
    var after := WithStore(s, Swapped(s.store, record.revision, next));
    SwapKeeps(s, record, next);
    if CanSwap(s.store, record.deliveryId, record.revision) {
      assert !WasSent(s.sends, record.deliveryId);
      SetPumpKeeps(after, id, ReadyToSend(next));
    } else {
      SetPumpKeeps(after, id, Fetching);
    }
  }

  lemma SendKeeps(s: State, id: nat)
    requires Inv(s) && id in s.pumps && s.pumps[id].1.ReadyToSend?
    ensures Inv(DoSend(s, id))
  {
    var prepared := s.pumps[id].1.prepared;
    var s' := DoSend(s, id);
    assert forall i | 0 <= i < |s.sends| :: s.sends[i].deliveryId != prepared.deliveryId;
    assert SendsOk(s');
    forall j | j in s'.pumps ensures PumpOk(s', s'.pumps[j].1) {
      if j != id && s.pumps[j].1.ReadyToSend? {
        OtherUnsent(s, id, j);
      }
    }
  }

  lemma OtherUnsent(s: State, id: nat, j: nat)
    requires Inv(s) && id in s.pumps && s.pumps[id].1.ReadyToSend?
    requires j in s.pumps && j != id && s.pumps[j].1.ReadyToSend?
    ensures !WasSent(s.sends + [s.pumps[id].1.prepared], s.pumps[j].1.prepared.deliveryId)
  {
  }

  lemma AcknowledgeKeeps(s: State, id: nat)
    requires Inv(s) && id in s.pumps && s.pumps[id].1.Acknowledging?
    ensures Inv(DoAcknowledge(s, id)) && StoreAdvances(s, DoAcknowledge(s, id))
  {
    var prepared, next := s.pumps[id].1.prepared, Receipted(s.pumps[id].1.prepared, s.pumps[id].1.receiptId);
    var after := WithStore(s, Swapped(s.store, prepared.revision, next));
    SwapKeeps(s, prepared, next);
    assert id in after.pumps && PumpOk(after, Fetching);
    SetPumpKeeps(after, id, Fetching);
  }

  lemma FetchKeeps(s: State, id: nat, record: Record, attemptId: string)
    requires Inv(s) && id in s.pumps && s.pumps[id].1.Fetching?
    ensures var s' := Pumped(s, id, Fetch(record, attemptId)); Inv(s') && s'.store == s.store
  {
    if record.deliveryId in s.store && s.store[record.deliveryId] == record && record.state == NotDispatched {
      SetPumpKeeps(s, id, Marking(record, attemptId));
    }
  }

  /** A pump starts on a delivery, fails, or ends. */
  lemma PumpTurnKeeps(s: State, id: nat, stretch: Stretch)
    requires Inv(s) && id in s.pumps
    requires stretch in {FetchNone, Fail, Finish} || stretch.Fetch?
    ensures var s' := Pumped(s, id, stretch); Inv(s') && StoreAdvances(s, s')
  {
    match (stretch, s.pumps[id].1)
    case (FetchNone, Fetching) => EndPumpKeeps(s, id);
    case (Fetch(record, attemptId), Fetching) => FetchKeeps(s, id, record, attemptId);
    case (Fail, _) => SetPumpKeeps(s, id, Failing);
    case (Finish, Failing) => EndPumpKeeps(s, id);
    case _ =>
  }

  /** A pump carries its delivery one stretch further. */
  lemma DeliverKeeps(s: State, id: nat, stretch: Stretch)
    requires Inv(s) && id in s.pumps
    requires stretch in {Mark, Send, Acknowledge} || stretch.Sent?
    ensures var s' := Pumped(s, id, stretch); Inv(s') && StoreAdvances(s, s')
  {
    match (stretch, s.pumps[id].1)
    case (Mark, Marking(_, _)) => MarkKeeps(s, id);
    case (Send, ReadyToSend(_)) => SendKeeps(s, id);
    case (Sent(receiptId), Sending(prepared)) => SetPumpKeeps(s, id, Acknowledging(prepared, receiptId));
    case (Acknowledge, Acknowledging(_, _)) => AcknowledgeKeeps(s, id);
    case _ =>
  }

  lemma PumpedKeeps(s: State, id: nat, stretch: Stretch)
    requires Inv(s) && id in s.pumps
    ensures Inv(Pumped(s, id, stretch)) && StoreAdvances(s, Pumped(s, id, stretch))
  {
    if stretch in {FetchNone, Fail, Finish} || stretch.Fetch? {
      PumpTurnKeeps(s, id, stretch);
    } else {
      DeliverKeeps(s, id, stretch);
    }
  }

  lemma EnqueueKeeps(s: State, deliveryId: string, eventKey: string, facts: string)
    requires Inv(s)
    ensures var s' := Next(s, Enqueue(deliveryId, eventKey, facts)); Inv(s') && StoreAdvances(s, s')
  {
    StoreChangeKeeps(s, Next(s, Enqueue(deliveryId, eventKey, facts)).store);
  }

  lemma SettleKeeps(s: State, id: nat)
    requires Inv(s) && id in s.reconcilers && s.reconcilers[id].Settling?
    ensures Inv(DoSettle(s, id)) && StoreAdvances(s, DoSettle(s, id))
  {
    var record, next := s.reconcilers[id].record, Receipted(s.reconcilers[id].record, s.reconcilers[id].receiptId);
    SwapKeeps(s, record, next);
    var after := WithStore(s, Swapped(s.store, record.revision, next));
    PumpOkDependsOn(after, DoSettle(s, id));
  }

  lemma FlushKeeps(s: State, harness: nat)
    requires Inv(s) && harness !in s.pumping
    ensures Inv(DoFlush(s, harness))
  {
    var t := DoFlush(s, harness);
    PumpOkDependsOn(s, t);
    assert s.nextId !in s.pumps;
    assert PumpsOk(t) && PumpingOk(t);
  }

  lemma DieKeeps(s: State, harness: nat)
    requires Inv(s)
    ensures Inv(Next(s, Die(harness)))
  {
    PumpOkDependsOn(s, Next(s, Die(harness)));
  }

  lemma ReconcileKeeps(s: State, uncertain: seq<Record>)
    requires Inv(s)
    ensures Inv(Next(s, Reconcile(uncertain))) && Next(s, Reconcile(uncertain)).store == s.store
  {
    PumpOkDependsOn(s, Next(s, Reconcile(uncertain)));
  }

  lemma SetReconcilerKeeps(s: State, id: nat, reconciler: Reconciler)
    requires Inv(s) && id in s.reconcilers && ReconcilerOk(s, reconciler)
    ensures Inv(s.(reconcilers := s.reconcilers[id := reconciler]))
  {
    PumpOkDependsOn(s, s.(reconcilers := s.reconcilers[id := reconciler]));
  }

  lemma EndReconcilerKeeps(s: State, id: nat)
    requires Inv(s)
    ensures Inv(s.(reconcilers := s.reconcilers - {id}))
  {
    PumpOkDependsOn(s, s.(reconcilers := s.reconcilers - {id}));
  }

  lemma ReconciledKeeps(s: State, id: nat, receiptId: Option<string>)
    requires Inv(s)
    ensures Inv(Next(s, Reconciled(id, receiptId))) && Next(s, Reconciled(id, receiptId)).store == s.store
  {
    if id in s.reconcilers && s.reconcilers[id].Asking? {
      var todo := s.reconcilers[id].todo;
      if todo == [] {
        EndReconcilerKeeps(s, id);
      } else if todo[0].attemptId.None? || receiptId.None? {
        SetReconcilerKeeps(s, id, Asking(todo[1..]));
      } else {
        SetReconcilerKeeps(s, id, Settling(todo[0], receiptId.value, todo[1..]));
      }
    }
  }

  /** Actions that leave the store alone. */
  lemma HarnessKeeps(s: State, action: Action)
    requires Inv(s) && (action.Flush? || action.Die?)
    ensures Inv(Next(s, action)) && Next(s, action).store == s.store
  {
    match action
    case Flush(harness) => if harness !in s.pumping { FlushKeeps(s, harness); }
    case Die(harness) => DieKeeps(s, harness);
  }

  /** Every action keeps the invariant and only moves deliveries forward. */
  lemma NextKeeps(s: State, action: Action)
    requires Inv(s)
    ensures Inv(Next(s, action)) && StoreAdvances(s, Next(s, action))
  {
    match action
    case Enqueue(deliveryId, eventKey, facts) => EnqueueKeeps(s, deliveryId, eventKey, facts);
    case Resume(pump, stretch) => if pump in s.pumps { PumpedKeeps(s, pump, stretch); }
    case SettleReconciled(id) => if id in s.reconcilers && s.reconcilers[id].Settling? { SettleKeeps(s, id); }
    case Flush(_) => HarnessKeeps(s, action);
    case Die(_) => HarnessKeeps(s, action);
    case Reconcile(uncertain) => ReconcileKeeps(s, uncertain);
    case Reconciled(id, receiptId) => ReconciledKeeps(s, id, receiptId);
  }

  lemma {:induction false} RunKeeps(actions: seq<Action>)
    ensures Inv(Run(INIT, actions))
  {
    if actions != [] {
      RunKeeps(actions[..|actions| - 1]);
      NextKeeps(Run(INIT, actions[..|actions| - 1]), actions[|actions| - 1]);
    }
  }

  // ---- the results, over every run ---------------------------------------------------------------

  ghost function SendsOf(s: State, eventKey: string): set<nat> {
    set i: nat | i < |s.sends| && s.sends[i].eventKey == eventKey
  }

  /** However many harnesses pump, reconcile, fail and restart, an event is sent at most once, and
      only while its stored delivery is marked. */
  lemma SentAtMostOnce(actions: seq<Action>, eventKey: string)
    ensures var s := Run(INIT, actions);
            && |SendsOf(s, eventKey)| <= 1
            && forall i | i in SendsOf(s, eventKey) ::
                 && s.sends[i].deliveryId in s.store
                 && var stored := s.store[s.sends[i].deliveryId];
                    && stored.state != NotDispatched && stored.attemptId == s.sends[i].attemptId
                    && stored.eventKey == eventKey && stored.facts == s.sends[i].facts
  {
    RunKeeps(actions);
    var s := Run(INIT, actions);
    if SendsOf(s, eventKey) != {} {
      var i :| i in SendsOf(s, eventKey);
      forall j | j in SendsOf(s, eventKey) ensures j == i {
        assert Copy(s.store, s.sends[i]) && Copy(s.store, s.sends[j]);
        assert s.sends[i].deliveryId == s.sends[j].deliveryId;
      }
      assert SendsOf(s, eventKey) == {i};
    }
  }

  lemma OnlySendSends(s: State, action: Action)
    ensures Next(s, action).sends != s.sends ==>
              && action.Resume? && action.stretch == Send
              && action.pump in s.pumps && s.pumps[action.pump].1.ReadyToSend?
              && Next(s, action).sends == s.sends + [s.pumps[action.pump].1.prepared]
  {
  }

  /** A send happens only in a pump's send stretch, never in a reconciliation, and the mark with
      this very attempt was durable before it. */
  lemma SendAfterMark(actions: seq<Action>, action: Action)
    ensures var s, s' := Run(INIT, actions), Next(Run(INIT, actions), action);
            s'.sends != s.sends ==>
              && action.Resume? && action.stretch.Send? && |s'.sends| == |s.sends| + 1
              && var sent := s'.sends[|s.sends|];
                 && sent.attemptId.Some? && sent.deliveryId in s.store
                 && s.store[sent.deliveryId].state != NotDispatched
                 && (s.store[sent.deliveryId].revision == sent.revision ==> s.store[sent.deliveryId] == sent)
  {
    RunKeeps(actions);
    OnlySendSends(Run(INIT, actions), action);
  }

  /** Each harness has at most one pump running, the one its variable names. */
  lemma OnePumpPerHarness(actions: seq<Action>, i: nat, j: nat)
    requires var s := Run(INIT, actions); i in s.pumps && j in s.pumps && s.pumps[i].0 == s.pumps[j].0
    ensures i == j
  {
    RunKeeps(actions);
  }

  /** Deliveries only move forward along a run. */
  lemma DeliveriesMoveForward(actions: seq<Action>, action: Action)
    ensures StoreAdvances(Run(INIT, actions), Next(Run(INIT, actions), action))
  {
    RunKeeps(actions);
    NextKeeps(Run(INIT, actions), action);
  }

  // ---- the harness and its store, updated in place ----------------------------------------------

  /** Each method is one stretch of one harness over the shared store. */
  class Outbox {
    var store: map<string, Record>
    var pumps: map<nat, (nat, Pump)>
    var pumping: map<nat, nat>
    var reconcilers: map<nat, Reconciler>
    var nextId: nat
    var sends: seq<Record>

    ghost function View(): State
      reads this
    {
      State(store, pumps, pumping, reconcilers, nextId, sends)
    }

    constructor ()
      ensures View() == INIT
    {
      store, pumps, pumping, reconcilers, nextId, sends := map[], map[], map[], map[], 0, [];
    }

    /** `pumping ??= runPump()` */
    method FlushHarness(harness: nat)
      requires Inv(View())
      modifies this`pumps, this`pumping, this`nextId
      ensures View() == Next(old(View()), Flush(harness)) && Inv(View())
    {
      if harness !in pumping {
        FlushKeeps(View(), harness);
        pumping := pumping[harness := nextId];
        pumps := pumps[nextId := (harness, Fetching)];
        nextId := nextId + 1;
      }
    }

    method SwapRecord(expected: nat, next: Record) returns (won: bool)
      modifies this`store
      ensures store == Swapped(old(store), expected, next)
      ensures won <==> CanSwap(old(store), next.deliveryId, expected)
    {
      won := next.deliveryId in store && store[next.deliveryId].revision == expected;
      if won {
        store := store[next.deliveryId := next];
      }
    }

    /** Mark the fetched delivery; losing the race goes back for the next one. */
    method MarkDelivery(pump: nat)
      requires Inv(View()) && pump in pumps && pumps[pump].1.Marking?
      modifies this`store, this`pumps
      ensures View() == DoMark(old(View()), pump) && Inv(View())
    {
      MarkKeeps(View(), pump);
      var next := Marked(pumps[pump].1.record, pumps[pump].1.attemptId);
      var won := SwapRecord(pumps[pump].1.record.revision, next);
      pumps := pumps[pump := (pumps[pump].0, if won then ReadyToSend(next) else Fetching)];
    }

    method SendDelivery(pump: nat)
      requires Inv(View()) && pump in pumps && pumps[pump].1.ReadyToSend?
      modifies this`pumps, this`sends
      ensures View() == DoSend(old(View()), pump) && Inv(View())
    {
      SendKeeps(View(), pump);
      var prepared := pumps[pump].1.prepared;
      sends := sends + [prepared];
      pumps := pumps[pump := (pumps[pump].0, Sending(prepared))];
    }

    method AcknowledgeDelivery(pump: nat)
      requires Inv(View()) && pump in pumps && pumps[pump].1.Acknowledging?
      modifies this`store, this`pumps
      ensures View() == DoAcknowledge(old(View()), pump) && Inv(View())
    {
      AcknowledgeKeeps(View(), pump);
      var (prepared, receiptId) := (pumps[pump].1.prepared, pumps[pump].1.receiptId);
      var _ := SwapRecord(prepared.revision, Receipted(prepared, receiptId));
      pumps := pumps[pump := (pumps[pump].0, Fetching)];
    }

    /** The `finally` of `runPump`: the harness can be flushed again. */
    method FinishPump(pump: nat)
      requires Inv(View()) && pump in pumps && pumps[pump].1.Failing?
      modifies this`pumps, this`pumping
      ensures View() == Next(old(View()), Resume(pump, Finish)) && Inv(View())
    {
      EndPumpKeeps(View(), pump);
      pumping := pumping - {pumps[pump].0};
      pumps := pumps - {pump};
    }

    method SettleUncertain(id: nat)
      requires Inv(View()) && id in reconcilers && reconcilers[id].Settling?
      modifies this`store, this`reconcilers
      ensures View() == DoSettle(old(View()), id) && Inv(View())
    {
      SettleKeeps(View(), id);
      var (record, receiptId, todo) := (reconcilers[id].record, reconcilers[id].receiptId, reconcilers[id].todo);
      var _ := SwapRecord(record.revision, Receipted(record, receiptId));
      reconcilers := reconcilers[id := Asking(todo)];
    }
  }
}
