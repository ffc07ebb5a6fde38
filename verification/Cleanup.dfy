// Cleanup with the broker's log beside it: from the ledger, through the completer, to the files. No file
// of a published job moves before the log holds every gating message of its commit.

module Cleanup {
  import opened Wrappers
  import opened Lifecycle
  import opened LedgerSpec
  import opened LedgerRuns
  import opened Installing
  import opened Gate
  import opened Completion
  import opened Outcomes
  import Execution

  /** The log holds every gating message of the job's last commit; or the job is one that publishes nothing. */
  ghost predicate MayMove(t: Trail, id: Id) {
    id in t.db.jobs &&
    (t.db.jobs[id].state in {InputInvalid, ProcessingExhausted}
     || (id in t.rowsOf
         && forall r :: r in t.rowsOf[id] && r in t.committed && t.committed[r].gating ==> Entry(r, t.committed[r]) in t.log))
  }

  lemma RecordedMayMove(t: Trail, budget: int, intent: Intent, now: int)
    requires Gated(t, budget) && RecordIntent(t.db, intent, now).Ok?
    ensures MayMove(t, intent.id)
  {
    hide Gated;
    if t.db.jobs[intent.id].state !in {InputInvalid, ProcessingExhausted} {
      NoCleanupBeforeConfirmation(t, budget, intent, now);
    }
  }

  /** The operation that records what an execution came to. */
  function Judgement(id: Id, ok: bool, observed: string, error: string): Op {
    if ok then CompleteOp(id, observed) else FailOp(id, error)
  }

  /** The trail after an intent was stored and judged. */
  ghost function Judged(t: Trail, budget: int, intent: Intent, now: int, ok: bool, observed: string, error: string): Trail {
    Follow(Follow(t, budget, IntentOp(intent, now)), budget, Judgement(intent.id, ok, observed, error))
  }

  lemma JudgedStaysGated(t: Trail, budget: int, intent: Intent, now: int, ok: bool, observed: string, error: string)
    requires Gated(t, budget) && RecordIntent(t.db, intent, now).Ok?
    ensures var u := Judged(t, budget, intent, now, ok, observed, error);
            Gated(u, budget) && u.log == t.log
            && u.db == Concluded(RecordIntent(t.db, intent, now).value, intent.id, ok, observed, error)
  {
    hide Gated, RecordIntent, CompleteCleanup, FailCleanup;
    OpStaysGated(t, budget, IntentOp(intent, now));
    OpStaysGated(Follow(t, budget, IntentOp(intent, now)), budget, Judgement(intent.id, ok, observed, error));
  }

  class Cleaner {
    const completer: Completer
    ghost var trail: Trail

    constructor (completer: Completer, ghost trail: Trail)
      ensures this.completer == completer && this.trail == trail
    {
      this.completer, this.trail := completer, trail;
    }

    ghost predicate Valid()
      reads this, completer.ledger
    {
      trail.db == completer.ledger.View() && Gated(trail, completer.ledger.budget)
    }

    /** Whether any file step was taken. */
    twostate predicate Moved()
      reads completer.disk
    {
      completer.disk.history != old(completer.disk.history)
    }

    /** The files are what executing the intent leaves behind, and the job is settled exactly if that succeeded. */
    twostate predicate Done(intent: Intent, suffix: bool, new r: Result<(), Code>)
      reads this, completer.disk
    {
      && Executed(completer.disk.env, old(completer.disk.files), completer.disk.files, intent, suffix, completer.records, r)
      && intent.id in trail.db.jobs && (Terminal(trail.db.jobs[intent.id].state) <==> r.Ok?)
    }

    /** Clean up after one job. */
    method Apply(intent: Intent, suffix: bool, now: int, observed: string, error: string) returns (r: Result<(), Code>)
      requires Valid()
      modifies this, completer.ledger, completer.disk, completer`journal
      ensures Valid() && trail.log == old(trail.log)
      ensures Moved() ==> MayMove(old(trail), intent.id)
      ensures RecordIntent(old(trail).db, intent, now).Ok? ==> Done(intent, suffix, r)
    {
      hide Gated, MayMove, RecordIntent, Concluded, Execution.Execute, Executed;
      ghost var t, budget := trail, completer.ledger.budget;
      if RecordIntent(t.db, intent, now).Ok? { RecordedMayMove(t, budget, intent, now); }
      r := completer.Apply(intent, suffix, now, observed, error);
      if RecordIntent(t.db, intent, now).Ok? {
        JudgedStaysGated(t, budget, intent, now, r.Ok?, observed, error);
        OnlySuccessIsTerminal(t.db, intent, now, r.Ok?, observed, error);
        trail := Judged(t, budget, intent, now, r.Ok?, observed, error);
      }
    }

    /** Clean up what a crash left. */
    method Reconcile(intent: Intent, suffix: bool, now: int, observed: string, error: string) returns (r: Result<(), Code>)
      requires Valid()
      modifies this, completer.ledger, completer.disk, completer`journal
      ensures Valid() && trail.log == old(trail.log)
      ensures Moved() ==> MayMove(old(trail), intent.id)
      ensures RecordIntent(old(trail).db, intent, now).Ok? ==> Done(intent, suffix, r)
    {
      hide Gated, MayMove, Concluded, Execution.Execute, Executed;
      ghost var t, budget := trail, completer.ledger.budget;
      if RecordIntent(t.db, intent, now).Ok? { RecordedMayMove(t, budget, intent, now); }
      r := completer.Reconcile(intent, suffix, now, observed, error);
      if RecordIntent(t.db, intent, now).Ok? {
        JudgedStaysGated(t, budget, intent, now, r.Ok?, observed, error);
        OnlySuccessIsTerminal(t.db, intent, now, r.Ok?, observed, error);
        trail := Judged(t, budget, intent, now, r.Ok?, observed, error);
      }
    }
  }
}
