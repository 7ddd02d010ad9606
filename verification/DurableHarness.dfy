// The durable operation harness with its store and its workers updated in place
// (packages/core/examples/tools/durable-async-operation-harness.ts).
module DurableHarness {
  import opened DurableOperation
  import opened DurableSteps

  /** Each method is one stretch of one activity; together with the lemmas above it keeps `Inv`. */
  class Harness {
    var store: map<string, Record>
    var actors: map<nat, Actor>
    var nextId: nat
    var submissions: seq<Record>

    ghost function View(): State
      reads this
    {
      State(store, actors, nextId, submissions)
    }

    constructor ()
      ensures View() == INIT
    {
      store, actors, nextId, submissions := map[], map[], 0, [];
    }

    method CompareAndSwap(expected: nat, next: Record) returns (won: bool)
      modifies this`store
      ensures store == Swapped(old(store), expected, next)
      ensures won <==> CanSwap(old(store), expected, next)
    {
      var id := next.request.operationId;
      won := id in store && store[id].revision == expected;
      if won {
        store := store[id := next];
      }
    }

    /** `execute` up to its first write: take the operation up only while it is pending. */
    method TakeUp(id: nat, attemptId: string, effectKey: string)
      requires Inv(View()) && id in actors && actors[id].Launched?
      modifies this`actors
      ensures View() == Next(old(View()), Resume(id, Read(attemptId, effectKey))) && Inv(View())
    {
      NextKeeps(View(), Resume(id, Read(attemptId, effectKey)));
      var operationId := actors[id].operationId;
      if operationId !in store || store[operationId].phase != Pending {
        actors := actors - {id};
      } else {
        actors := actors[id := Preparing(store[operationId], attemptId, effectKey)];
      }
    }

    /** The write that marks the operation possibly dispatched; losing it ends the worker. */
    method MarkDispatched(id: nat)
      requires Inv(View()) && id in actors && actors[id].Preparing?
      modifies this`store, this`actors
      ensures View() == Next(old(View()), Resume(id, Prepare)) && Inv(View())
    {
      NextKeeps(View(), Resume(id, Prepare));
      var actor := actors[id];
      var next := PreparedRecord(actor.current, actor.attemptId, actor.effectKey);
      var won := false;
      if Parses(next) {
        won := CompareAndSwap(actor.current.revision, next);
      }
      actors := if won then actors[id := Prepared(next)] else actors - {id};
    }

    method CallProvider(id: nat)
      requires Inv(View()) && id in actors && actors[id].Prepared?
      modifies this`actors, this`submissions
      ensures View() == Next(old(View()), Resume(id, Submit)) && Inv(View())
    {
      NextKeeps(View(), Resume(id, Submit));
      var prepared := actors[id].prepared;
      submissions := submissions + [prepared];
      actors := actors[id := Submitted(prepared)];
    }

    /** A progress report: write the ratio, and refresh the worker's active record. */
    method WriteProgress(id: nat)
      requires Inv(View()) && id in actors && actors[id].Reporting?
      modifies this`store, this`actors
      ensures View() == Next(old(View()), Resume(id, ReportSwap)) && Inv(View())
    {
      ghost var before := View();
      var (worker, current) := (actors[id].worker, actors[id].current);
      var next := ProgressRecord(current, actors[id].ratio);
      actors := actors - {id};
      if Parses(next) {
        var won := CompareAndSwap(current.revision, next);
        if won && worker in actors {
          RefreshActive(worker, next);
        }
      }
      assert View() == Next(before, Resume(id, ReportSwap));
      NextKeeps(before, Resume(id, ReportSwap));
    }

    method RefreshActive(worker: nat, progressed: Record)
      requires worker in actors
      modifies this`actors
      ensures View() == WithActive(old(View()), worker, progressed)
    {
      match actors[worker] {
        case Submitted(_) => actors := actors[worker := Submitted(progressed)];
        case Answered(_, outcome) => actors := actors[worker := Answered(progressed, outcome)];
        case _ =>
      }
    }

    /** The worker's final write, from the record it read last. */
    method CommitTerminal(id: nat)
      requires Inv(View()) && id in actors && actors[id].Committing?
      modifies this`store, this`actors
      ensures View() == Next(old(View()), Resume(id, Commit)) && Inv(View())
    {
      ghost var before := View();
      var next := TerminalRecord(actors[id].latest, actors[id].outcome);
      if Parses(next) {
        var _ := CompareAndSwap(actors[id].latest.revision, next);
      }
      actors := actors - {id};
      assert View() == Next(before, Resume(id, Commit));
      NextKeeps(before, Resume(id, Commit));
    }

    /** One turn of the recovery loop. */
    method RecoverOne(id: nat)
      requires Inv(View()) && id in actors && actors[id].Recovering?
      modifies this`actors, this`nextId
      ensures View() == Next(old(View()), Resume(id, RecoverNext)) && Inv(View())
    {
      NextKeeps(View(), Resume(id, RecoverNext));
      var todo := actors[id].todo;
      if todo == [] {
        actors := actors - {id};
      } else if todo[0].dispatch == NotDispatched {
        actors := actors[id := Recovering(todo[1..])];
        actors := actors[nextId := Launched(todo[0].request.operationId)];
        nextId := nextId + 1;
      } else if todo[0].effectKey.None? || todo[0].dispatch != PossiblyDispatched {
        actors := actors[id := Recovering(todo[1..])];
      } else {
        actors := actors[id := Reconciling(todo[0], todo[1..])];
      }
    }

    /** What a reconciled record is settled with; the loop goes on either way. */
    method SettleRecovered(id: nat)
      requires Inv(View()) && id in actors && actors[id].Recommitting?
      modifies this`store, this`actors
      ensures View() == Next(old(View()), Resume(id, Recommit)) && Inv(View())
    {
      ghost var before := View();
      var (record, outcome, todo) := (actors[id].record, actors[id].outcome, actors[id].todo);
      var next := TerminalRecord(record, outcome);
      if Parses(next) {
        var _ := CompareAndSwap(record.revision, next);
        actors := actors[id := Recovering(todo)];
      } else {
        actors := actors - {id};
      }
      assert View() == Next(before, Resume(id, Recommit));
      NextKeeps(before, Resume(id, Recommit));
    }
  }
}
