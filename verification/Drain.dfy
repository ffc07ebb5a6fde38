// The drain thread as an object: one batch at a time, in order, with other ledger users acting between
// any two of its steps.

module Draining {
  import opened Wrappers
  import opened Lifecycle
  import opened LedgerSpec
  import opened LedgerFacts
  import opened LedgerStore
  import opened LedgerRuns
  import opened LedgerEffects
  import opened Gate
  import opened Publishing

  /** Run one ledger operation, whichever it is. */
  method Act(ledger: Ledger, op: Op)
    requires Keyed(ledger.jobs)
    modifies ledger
    ensures ledger.View() == Perform(old(ledger.View()), ledger.budget, op)
  {
    hide InsertRows;
    match op {
      case AdmitOp(job, reserve, now) => var r := ledger.Admit(job, reserve, now);
      case TransitionOp(id, expected, next, f) => var r := ledger.SetState(id, expected, next, f);
      case CommitOp(id, result, sidecar, rows) => var r := ledger.CommitResult(id, result, sidecar, rows);
      case PublishedOp(row) => var r := ledger.MarkPublished(row);
      case AttemptOp(row, error) => var r := ledger.MarkPublishAttempt(row, error);
      case RetryOp(id) => var r := ledger.RetryPublication(id);
      case IntentOp(intent, now) => var r := ledger.RecordCleanupIntent(intent, now);
      case CompleteOp(id, observed) => var r := ledger.CompleteCleanup(id, observed);
      case FailOp(id, error) => var r := ledger.FailCleanup(id, error);
      case ReinferOp(id, reason) => var r := ledger.RequeueForReinference(id, reason);
      case UnblockOp(route) => var moved := ledger.RequeueBlocked(route);
      case RecoverOp(now) => var report := ledger.Recover(now);
    }
  }

  class Broker {
    ghost var log: seq<Entry>

    constructor ()
      ensures log == []
    {
      log := [];
    }

    /** Offer one message. It may be accepted and the acceptance lost on the way back. */
    method Publish(topic: string, payload: Bytes, ghost entry: Entry) returns (confirmed: bool)
      requires entry.message.topic == topic && entry.message.payload == payload
      modifies this
      ensures log == old(log) + [entry] || (log == old(log) && !confirmed)
    {
      var accepted: bool := *;
      confirmed := *;
      if accepted { log := log + [entry]; } else { confirmed := false; }
    }
  }

  class Publisher {
    const ledger: Ledger
    const broker: Broker
    const maxAttempts: int
    const batch: nat
    var attempted: nat
    var published: nat
    var failed: nat
    var exhausted: nat
    ghost var committed: map<nat, Message>
    ghost var rowsOf: map<Id, set<nat>>

    /** Take up an outbox where an earlier drain left it: whatever the ledger and the broker's log have
        come to, as long as the gate holds. Jobs a crash left astray, or another limit, are counted as such. */
    constructor (ledger: Ledger, broker: Broker, maxAttempts: int, batch: nat, ghost committed: map<nat, Message>, ghost rowsOf: map<Id, set<nat>>)
      requires Gated(Trail(ledger.View(), broker.log, committed, rowsOf), ledger.budget)
      ensures Ready(Astray(ledger.View(), this.maxAttempts)) && this.ledger == ledger && this.broker == broker
      ensures this.maxAttempts == (if maxAttempts >= 1 then maxAttempts else 1) && this.batch == (if batch >= 1 then batch else 1)
      ensures this.committed == committed && this.rowsOf == rowsOf
    {
      this.ledger, this.broker, this.committed, this.rowsOf := ledger, broker, committed, rowsOf;
      this.maxAttempts := if maxAttempts >= 1 then maxAttempts else 1;
      this.batch := if batch >= 1 then batch else 1;
      attempted, published, failed, exhausted := 0, 0, 0, 0;
    }

    ghost function Record(): Trail
      reads this`committed, this`rowsOf, ledger, broker
    {
      Trail(ledger.View(), broker.log, committed, rowsOf)
    }

    /** The gate holds, and so does the publish budget, but for the jobs astray. */
    ghost predicate Ready(astray: set<Id>)
      reads this`committed, this`rowsOf, ledger, broker
    {
      Gated(Record(), ledger.budget) && Budgeted(ledger.View(), maxAttempts, astray) && maxAttempts >= 1
    }

    /** One other ledger operation happens now. */
    method Let(op: Op, judging: Option<Fetched>, ghost held: seq<Fetched>, ghost astray: set<Id>)
      requires Beside(op) && Ready(astray) && AllHeld(ledger.View(), held)
      requires judging.Some? ==> Judging(ledger.View(), judging.value, maxAttempts)
      modifies ledger, this`committed, this`rowsOf
      ensures Ready(astray) && AllHeld(ledger.View(), held)
      ensures judging.Some? ==> Judging(ledger.View(), judging.value, maxAttempts)
      ensures Extends(old(committed), committed) && old(ledger.jobs).Keys <= ledger.jobs.Keys
    {
      assert Keyed(ledger.jobs);
      hide Gated, Budgeted, AllHeld, Judging, Perform, Beside, Follow;
      ghost var before := Record();
      BesideStep(before, ledger.budget, op, maxAttempts, astray, judging, held);
      CommittedGrows(before, ledger.budget, op);
      Act(ledger, op);
      committed, rowsOf := Follow(before, ledger.budget, op).committed, Follow(before, ledger.budget, op).rowsOf;
    }

    /** Any number of other ledger operations happen now. */
    method Meanwhile(judging: Option<Fetched>, ghost held: seq<Fetched>, ghost astray: set<Id>)
      requires Ready(astray) && AllHeld(ledger.View(), held)
      requires judging.Some? ==> Judging(ledger.View(), judging.value, maxAttempts)
      modifies ledger, this`committed, this`rowsOf
      ensures Ready(astray) && AllHeld(ledger.View(), held)
      ensures judging.Some? ==> Judging(ledger.View(), judging.value, maxAttempts)
      ensures Extends(old(committed), committed) && old(ledger.jobs).Keys <= ledger.jobs.Keys
    {
      hide Ready, AllHeld, Judging;
      var n: int := *;
      while n > 0
        invariant Ready(astray) && AllHeld(ledger.View(), held)
        invariant judging.Some? ==> Judging(ledger.View(), judging.value, maxAttempts)
        invariant Extends(old(committed), committed) && old(ledger.jobs).Keys <= ledger.jobs.Keys
      {
        var op: Op := *;
        if Beside(op) { Let(op, judging, held, astray); }
        n := n - 1;
      }
    }

    /** Read one batch: the first eligible rows, as they stand. */
    method Fetch(ghost astray: set<Id>) returns (rows: seq<Fetched>)
      requires Ready(astray)
      ensures AllHeld(ledger.View(), rows) && |rows| <= batch && Offered(ledger.View(), committed, rows)
      ensures FirstEligible(ledger.View(), RowIds(rows), 0, batch)
    {
      hide Gated, Budgeted, AllHeld, Offered, Snapshot;
      var ids := ledger.PendingOutbox(batch);
      SnapshotIsHeld(Record(), ledger.budget, ids, batch);
      rows := Snapshot(ledger.View(), ids);
      assert RowIds(rows) == ids;
    }

    /** Count one failed attempt; a row that is gone refuses it. */
    method CountFailure(f: Fetched, error: string, ghost rest: seq<Fetched>, ghost astray: set<Id>) returns (counted: bool)
      requires Ready(astray) && AllHeld(ledger.View(), [f] + rest) && !f.row.published && f.row.job in ledger.jobs
      modifies ledger
      ensures counted == (f.id in old(ledger.outbox)) && ledger.outbox.Keys == old(ledger.outbox).Keys
      ensures counted && f.row.attempts + 1 >= maxAttempts ==>
        Ready(astray + {f.row.job}) && Judging(ledger.View(), Again(f, error), maxAttempts)
      ensures !counted || f.row.attempts + 1 < maxAttempts ==> Ready(astray)
      ensures ledger.jobs.Keys == old(ledger.jobs).Keys
    {
      hide Gated, Budgeted, AllHeld, Judging;
      ghost var before := Record();
      OpStaysGated(before, ledger.budget, AttemptOp(f.id, error));
      HeldFailure(before.db, f, rest, error, maxAttempts, astray);
      var r := ledger.MarkPublishAttempt(f.id, error);
      return r.Ok?;
    }

    /** Move the job of a spent row to PUBLISH_EXHAUSTED, if it is still being published. That is right
        exactly when the row was still there or the ledger refused. */
    method GiveUp(f: Fetched, ghost astray: set<Id>) returns (gaveUp: bool)
      requires Ready(astray + {f.row.job}) && Judging(ledger.View(), f, maxAttempts)
      modifies ledger
      ensures Ready(astray + {f.row.job})
      ensures Ready(astray - {f.row.job}) <==> f.id in ledger.outbox || !gaveUp
      ensures f.row.job in ledger.jobs && ledger.jobs[f.row.job].state != PublishPending
      ensures gaveUp ==> ledger.jobs[f.row.job].state == PublishExhausted
      ensures ledger.jobs.Keys == old(ledger.jobs).Keys && ledger.outbox == old(ledger.outbox)
    {
      hide Gated, Budgeted, Judging;
      ghost var before := Record();
      OpStaysGated(before, ledger.budget, TransitionOp(f.row.job, PublishPending, PublishExhausted, NO_FIELDS));
      JudgedIsKnown(before.db, f, maxAttempts);
      assert astray - {f.row.job} + {f.row.job} == astray + {f.row.job};
      JudgedFairly(before.db, f, maxAttempts, astray - {f.row.job});
      var r := ledger.SetState(f.row.job, PublishPending, PublishExhausted, NO_FIELDS);
      return r.Ok?;
    }

    /** The row was confirmed, is gone, or its job is not being published any more. */
    ghost predicate Settled(f: Fetched)
      reads ledger
    {
      f.id !in ledger.outbox || ledger.outbox[f.id].published
      || (f.row.job in ledger.jobs && ledger.jobs[f.row.job].state != PublishPending)
    }

    /** Count a failed attempt, and give the job up when its budget is spent. That is unjust exactly when
        the job lost the row to a new commit since the count; otherwise it also settles a job that had
        been left overdrawn. */
    method RecordFailure(f: Fetched, error: string, ghost rest: seq<Fetched>, ghost astray: set<Id>) returns (ghost unjust: bool)
      requires Ready(astray) && AllHeld(ledger.View(), [f] + rest) && !f.row.published && f.row.job in ledger.jobs
      modifies ledger, this`committed, this`rowsOf, this`failed, this`exhausted
      ensures failed == old(failed) + 1
      ensures exhausted == old(exhausted) || (exhausted == old(exhausted) + 1 && f.row.attempts + 1 >= maxAttempts)
      ensures exhausted != old(exhausted) ==> f.row.job in ledger.jobs && ledger.jobs[f.row.job].state == PublishExhausted
      ensures unjust <==> exhausted != old(exhausted) && f.id !in ledger.outbox
      ensures Ready(if unjust then astray + {f.row.job} else astray) && (unjust ==> !Ready(astray - {f.row.job}))
      ensures f.row.attempts + 1 >= maxAttempts ==> Settled(f) && (f.id in ledger.outbox ==> Ready(astray - {f.row.job}))
      ensures Extends(old(committed), committed)
      ensures old(ledger.jobs).Keys <= ledger.jobs.Keys
    {
      hide Gated, Budgeted, AllHeld, Judging;
      failed, unjust := failed + 1, false;
      var counted := CountFailure(f, error, rest, astray);
      if !counted || f.row.attempts + 1 < maxAttempts { return; }
      NothingHeld(ledger.View());
      Meanwhile(Some(Again(f, error)), [], astray + {f.row.job});
      var gaveUp := GiveUp(Again(f, error), astray);
      if gaveUp { exhausted := exhausted + 1; }
      unjust := gaveUp && f.id !in ledger.outbox;
      FewerAstray(ledger.View(), maxAttempts, astray - {f.row.job}, astray);
    }

    /** Offer one row, then confirm it in the ledger as it was `seen` just before, or count the failure. False stops
        the pass: the broker did not confirm, or the row was gone. A row with no failure left is settled either way. */
    method Attempt(f: Fetched, ghost rest: seq<Fetched>, ghost astray: set<Id>) returns (ok: bool, ghost unjust: bool, ghost seen: Db)
      requires Ready(astray) && AllHeld(ledger.View(), [f] + rest) && !f.row.published && f.row.job in ledger.jobs
      requires f.id in committed && committed[f.id] == f.row.message
      modifies ledger, broker, this`committed, this`rowsOf, this`attempted, this`published, this`failed, this`exhausted
      ensures Ready(if unjust then astray + {f.row.job} else astray) && (ok ==> !unjust && AllHeld(ledger.View(), rest))
      ensures f.row.attempts + 1 >= maxAttempts ==> Settled(f)
      ensures f.row.attempts + 1 >= maxAttempts && !ok && f.id in ledger.outbox ==> Ready(astray - {f.row.job})
      ensures unjust ==> UnjustlyGivenUp(f)
      ensures ok ==> ConfirmedIn(seen, ledger.View(), f.id)
      ensures ok ==> broker.log == old(broker.log) + [Entry(f.id, f.row.message)] && published == old(published) + 1
      ensures broker.log == old(broker.log) || broker.log == old(broker.log) + [Entry(f.id, f.row.message)]
      ensures !ok ==> published == old(published)
      ensures attempted == old(attempted) + 1
      ensures Extends(old(committed), committed)
      ensures old(ledger.jobs).Keys <= ledger.jobs.Keys
    {
      hide Ready, AllHeld, ConfirmedIn;
      attempted := attempted + 1;
      Meanwhile(None, [f] + rest, astray);
      var confirmed := Offer(f, astray);
      Meanwhile(None, [f] + rest, astray);
      if !confirmed {
        unjust := RecordFailure(f, "PUBLISH_FAILED", rest, astray);
        return false, unjust, ledger.View();
      }
      seen := ledger.View();
      ok := Confirm(f, rest, astray);
      unjust := false;
    }

    /** Offer one row's frozen bytes to the broker. */
    method Offer(f: Fetched, ghost astray: set<Id>) returns (confirmed: bool)
      requires Ready(astray) && f.id in committed && committed[f.id] == f.row.message
      modifies broker
      ensures Ready(astray) && (confirmed ==> InLog(broker.log, f.id))
      ensures broker.log == old(broker.log) + [Entry(f.id, f.row.message)] || (broker.log == old(broker.log) && !confirmed)
    {
      hide Gated, Budgeted;
      ghost var entry := Entry(f.id, f.row.message);
      SendStaysGated(Record(), ledger.budget, entry);
      LogGrows(broker.log, entry);
      confirmed := broker.Publish(f.row.message.topic, f.row.message.payload, entry);
    }

    /** The job was given up although it had lost the row that failed. */
    ghost predicate UnjustlyGivenUp(f: Fetched)
      reads ledger
    {
      f.id !in ledger.outbox && f.row.job in ledger.jobs && ledger.jobs[f.row.job].state == PublishExhausted
    }

    /** Record the broker's confirmation of one row; false when the row is gone. */
    method Confirm(f: Fetched, ghost rest: seq<Fetched>, ghost astray: set<Id>) returns (ok: bool)
      requires Ready(astray) && AllHeld(ledger.View(), [f] + rest) && InLog(broker.log, f.id)
      modifies ledger, this`published
      ensures Ready(astray) && AllHeld(ledger.View(), rest) && Settled(f)
      ensures ok ==> ConfirmedIn(old(ledger.View()), ledger.View(), f.id)
      ensures ok <==> f.id in old(ledger.outbox)
      ensures !ok ==> ledger.View() == old(ledger.View())
      ensures published == old(published) + if ok then 1 else 0
      ensures old(ledger.jobs).Keys <= ledger.jobs.Keys
    {
      hide Gated, Budgeted, AllHeld, ConfirmedIn;
      ghost var before := Record();
      ConfirmationPublishes(before.db, ledger.budget, f.id);
      ConfirmedIsKnown(before, ledger.budget, f.id);
      FirstIsHeld(before.db, f, rest);
      MarkStaysGated(before, ledger.budget, f.id);
      ConfirmationIsBudgeted(before.db, f, maxAttempts, astray);
      ConfirmationStillHeld(before.db, f, rest);
      MarkIsFinal(before.db, f);
      var r := ledger.MarkPublished(f.id);
      if r.Err? { return false; }
      published := published + 1;
      return true;
    }

    static lemma ConfirmedIsKnown(t: Trail, budget: int, row: nat)
      requires Gated(t, budget)
      ensures row in t.db.outbox ==> t.db.outbox[row].job in t.db.jobs
    {
    }

    /** These rows can be attempted: each of a known job, with the bytes its commit froze. */
    ghost predicate Attemptable(rows: seq<Fetched>)
      reads this`committed, ledger
    {
      forall k :: 0 <= k < |rows| ==>
        !rows[k].row.published && rows[k].row.job in ledger.jobs
        && rows[k].id in committed && committed[rows[k].id] == rows[k].row.message
    }

    twostate lemma StillAttemptable(rows: seq<Fetched>)
      requires old(Attemptable(rows)) && Extends(old(committed), committed) && old(ledger.jobs).Keys <= ledger.jobs.Keys
      ensures Attemptable(rows)
    {
    }

    /** Attempt the next row of a batch. */
    method AttemptNext(rows: seq<Fetched>, k: nat, ghost astray: set<Id>) returns (ok: bool, ghost unjust: bool, ghost seen: Db)
      requires k < |rows| && Ready(astray) && AllHeld(ledger.View(), rows[k..]) && Attemptable(rows)
      modifies ledger, broker, this`committed, this`rowsOf, this`attempted, this`published, this`failed, this`exhausted
      ensures attempted == old(attempted) + 1 && published == old(published) + if ok then 1 else 0
      ensures ok ==> !unjust && Ready(astray) && AllHeld(ledger.View(), rows[k + 1..]) && Attemptable(rows)
      ensures ok ==> broker.log == old(broker.log) + [Entry(rows[k].id, rows[k].row.message)]
      ensures broker.log == old(broker.log) || broker.log == old(broker.log) + [Entry(rows[k].id, rows[k].row.message)]
      ensures Ready(if unjust then astray + {rows[k].row.job} else astray) && (unjust ==> UnjustlyGivenUp(rows[k]))
      ensures rows[k].row.attempts + 1 >= maxAttempts ==> Settled(rows[k])
      ensures ok ==> ConfirmedIn(seen, ledger.View(), rows[k].id)
    {
      hide Ready, AllHeld, Settled, UnjustlyGivenUp, ConfirmedIn;
      assert rows[k..] == [rows[k]] + rows[k + 1..];
      ok, unjust, seen := Attempt(rows[k], rows[k + 1..], astray);
      StillAttemptable(rows);
    }

    /** Attempt the rows of a batch in order, stopping at the first the broker does not confirm. */
    method DrainBatch(rows: seq<Fetched>, ghost astray: set<Id>) returns (confirmed: nat, ghost unjust: bool)
      requires Ready(astray) && AllHeld(ledger.View(), rows) && Attemptable(rows)
      modifies ledger, broker, this`committed, this`rowsOf, this`attempted, this`published, this`failed, this`exhausted
      ensures confirmed <= |rows| && published == old(published) + confirmed
      ensures unjust ==> confirmed < |rows| && UnjustlyGivenUp(rows[confirmed])
      ensures Ready(if unjust then astray + {rows[confirmed].row.job} else astray)
      ensures attempted == old(attempted) + confirmed || attempted == old(attempted) + confirmed + 1
      ensures attempted == old(attempted) + confirmed + 1 ==>
        confirmed < |rows| && (rows[confirmed].row.attempts + 1 >= maxAttempts ==> Settled(rows[confirmed]))
      ensures broker.log == old(broker.log) + Entries(rows[..confirmed])
              || (confirmed < |rows| && broker.log == old(broker.log) + Entries(rows[..confirmed + 1]))
    {
      hide Ready, AllHeld, Settled, UnjustlyGivenUp, Attemptable;
      confirmed, unjust := 0, false;
      assert rows[0..] == rows;
      while confirmed < |rows|
        invariant confirmed <= |rows| && Ready(astray) && AllHeld(ledger.View(), rows[confirmed..]) && Attemptable(rows)
        invariant broker.log == old(broker.log) + Entries(rows[..confirmed]) && published == old(published) + confirmed
        invariant attempted == old(attempted) + confirmed && !unjust
      {
        var stop: bool := *;
        if stop { break; }
        OneMoreEntry(rows, confirmed);
        var ok;
        ghost var seen: Db;
        ok, unjust, seen := AttemptNext(rows, confirmed, astray);
        if !ok { break; }
        confirmed := confirmed + 1;
      }
    }

    /** Publish one batch of eligible rows in order, stopping at the first the broker does not confirm: the
        first eligible ones of the ledger as it was `seen`. The log gains exactly the confirmed rows of the
        batch, and perhaps the one the pass stopped at. */
    method DrainOnce(ghost astray: set<Id>) returns (confirmed: nat, ghost seen: Db, ghost rows: seq<Fetched>, ghost unjust: bool)
      requires Ready(astray)
      modifies ledger, broker, this`committed, this`rowsOf, this`attempted, this`published, this`failed, this`exhausted
      ensures FirstEligible(seen, RowIds(rows), 0, batch) && AllHeld(seen, rows)
      ensures confirmed <= |rows| && published == old(published) + confirmed
      ensures unjust ==> confirmed < |rows| && UnjustlyGivenUp(rows[confirmed])
      ensures Ready(if unjust then astray + {rows[confirmed].row.job} else astray)
      ensures attempted == old(attempted) + confirmed || attempted == old(attempted) + confirmed + 1
      ensures attempted == old(attempted) + confirmed + 1 ==>
        confirmed < |rows| && (rows[confirmed].row.attempts + 1 >= maxAttempts ==> Settled(rows[confirmed]))
      ensures broker.log == old(broker.log) + Entries(rows[..confirmed])
              || (confirmed < |rows| && broker.log == old(broker.log) + Entries(rows[..confirmed + 1]))
    {
      hide Ready, AllHeld, Offered, Settled, UnjustlyGivenUp, FirstEligible;
      NothingHeld(ledger.View());
      Meanwhile(None, [], astray);
      var batchRows := Fetch(astray);
      rows, seen := batchRows, ledger.View();
      OfferedAll(seen, committed, rows);
      confirmed, unjust := DrainBatch(batchRows, astray);
    }
  }
}
