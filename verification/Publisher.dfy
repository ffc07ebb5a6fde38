// The outbox drain: publish one batch in order, confirm what the broker accepts, count what it does
// not, and give a job up when a row of it has failed often enough. Others use the ledger meanwhile.

module Publishing {
  import opened Wrappers
  import opened Lifecycle
  import opened LedgerSpec
  import opened LedgerFacts
  import opened LedgerStore
  import opened LedgerRuns
  import opened Gate

  // -- the publish budget ------------------------------------------------------------------------

  /** Some unpublished row of the job has failed as often as it may. */
  ghost predicate Spent(db: Db, id: Id, max: int) {
    exists r :: r in db.outbox && db.outbox[r].job == id && !db.outbox[r].published && db.outbox[r].attempts >= max
  }

  ghost predicate WithinBudget(db: Db, id: Id, max: int)
    requires id in db.jobs
  {
    && (db.jobs[id].state == PublishPending ==> !Spent(db, id, max))
    && (db.jobs[id].state == PublishExhausted ==> Spent(db, id, max))
  }

  /** A job is exhausted exactly when one of its rows has failed `max` times since it was last offered;
      except for these, which a crash or a change of limits may have left otherwise. */
  ghost predicate Budgeted(db: Db, max: int, astray: set<Id>) {
    forall id :: id in db.jobs && id !in astray ==> WithinBudget(db, id, max)
  }

  /** The jobs that are overdrawn, or given up too early. */
  ghost function Astray(db: Db, max: int): (ids: set<Id>)
    ensures Budgeted(db, max, ids)
    ensures forall some :: Budgeted(db, max, some) <==> ids <= some
  {
    set id | id in db.jobs && !WithinBudget(db, id, max)
  }

  /** Between a counted failure and the exhaustion it calls for, the budget is overdrawn: exactly when
      the failure was the row's last allowed one. A crash in that gap leaves just that job astray. */
  lemma FailureOverdraws(db: Db, row: nat, error: string, max: int)
    requires MarkPublishAttempt(db, row, error).Ok? && db.outbox[row].job in db.jobs
    requires db.jobs[db.outbox[row].job].state == PublishPending && WithinBudget(db, db.outbox[row].job, max)
    ensures Astray(MarkPublishAttempt(db, row, error).value, max)
         == Astray(db, max) + if db.outbox[row].attempts + 1 < max then {} else {db.outbox[row].job}
  {
    var id := db.outbox[row].job;
    var after := MarkPublishAttempt(db, row, error).value;
    assert WithinBudget(after, id, max) <==> db.outbox[row].attempts + 1 < max by {
      assert after.outbox[row].attempts == db.outbox[row].attempts + 1;
    }
    FailureSparesOthers(db, row, error, max);
  }

  lemma FailureSparesOthers(db: Db, row: nat, error: string, max: int)
    requires MarkPublishAttempt(db, row, error).Ok?
    ensures var after := MarkPublishAttempt(db, row, error).value;
            forall other :: other in db.jobs && other != db.outbox[row].job ==>
              (WithinBudget(after, other, max) <==> WithinBudget(db, other, max))
  {
    var after := MarkPublishAttempt(db, row, error).value;
    forall other | other in db.jobs && other != db.outbox[row].job
      ensures WithinBudget(after, other, max) <==> WithinBudget(db, other, max)
    {
      SameRowsSameBudget(db, after, other, max);
    }
  }

  lemma SameRowsSameBudget(db: Db, after: Db, id: Id, max: int)
    requires id in db.jobs && id in after.jobs && after.jobs[id].state == db.jobs[id].state
    requires forall r :: r in after.outbox && after.outbox[r].job == id <==> r in db.outbox && db.outbox[r].job == id
    requires forall r :: r in db.outbox && db.outbox[r].job == id ==> after.outbox[r] == db.outbox[r]
    ensures WithinBudget(after, id, max) <==> WithinBudget(db, id, max)
  {
  }

  /** What other ledger users may do beside a drain: anything that does not confirm rows, count failures
      or move jobs in or out of publication by a bare transition. */
  predicate Beside(op: Op) {
    && !op.PublishedOp? && !op.AttemptOp? && !BareEdge(op)
    && (op.TransitionOp? ==>
          op.expected !in {PublishPending, PublishExhausted} && op.next !in {PublishPending, PublishExhausted})
  }

  /** What one such operation does to one job's publication. */
  ghost predicate Untouched(before: Db, after: Db, id: Id)
    requires id in after.jobs
  {
    if id in before.jobs && (after.jobs[id].state == before.jobs[id].state
                             || (PastPublication(before.jobs[id].state) && PastPublication(after.jobs[id].state))) then
      && (forall r :: r in after.outbox && after.outbox[r].job == id <==> r in before.outbox && before.outbox[r].job == id)
      && (forall r :: r in before.outbox && before.outbox[r].job == id ==> after.outbox[r] == before.outbox[r])
    else
      && after.jobs[id].state != PublishExhausted && (id in before.jobs ==> !PastPublication(before.jobs[id].state))
      && (after.jobs[id].state == PublishPending ==>
            forall r :: r in after.outbox && after.outbox[r].job == id && !after.outbox[r].published ==> after.outbox[r].attempts == 0)
      && (id in before.jobs && before.jobs[id].state == PublishPending ==> forall r :: r in after.outbox ==> after.outbox[r].job != id)
  }

  /** Row ids are never reused, and a row never changes jobs. */
  ghost predicate RowsStay(before: Db, after: Db) {
    && before.nextRow <= after.nextRow && before.jobs.Keys <= after.jobs.Keys
    && forall r :: r in after.outbox && r < before.nextRow ==> r in before.outbox && after.outbox[r].job == before.outbox[r].job
  }

  lemma UntouchedIsWithinBudget(db: Db, after: Db, id: Id, max: int)
    requires id in after.jobs && Untouched(db, after, id) && max >= 1
    requires id in db.jobs ==> WithinBudget(db, id, max)
    ensures WithinBudget(after, id, max)
  {
  }

  lemma UntouchedIsBudgeted(db: Db, after: Db, max: int, astray: set<Id>)
    requires Budgeted(db, max, astray) && max >= 1
    requires forall id :: id in after.jobs ==> Untouched(db, after, id)
    ensures Budgeted(after, max, astray)
  {
    hide Untouched, WithinBudget;
    forall id | id in after.jobs && id !in astray ensures WithinBudget(after, id, max) {
      UntouchedIsWithinBudget(db, after, id, max);
    }
  }

  ghost predicate AllUntouched(before: Db, after: Db) {
    RowsStay(before, after) && forall id :: id in after.jobs ==> Untouched(before, after, id)
  }

  lemma SetStateTouchesNone(db: Db, id: Id, expected: JobState, next: JobState, f: Fields)
    requires Beside(TransitionOp(id, expected, next, f))
    ensures AllUntouched(db, Committed(db, SetState(db, id, expected, next, f)))
  {
  }

  lemma CommitTouchesNone(db: Db, budget: int, op: Op)
    requires Inv(db, budget) && op.CommitOp?
    ensures AllUntouched(db, Perform(db, budget, op))
  {
    hide Inv, InsertRows, AllUntouched, WithRows, CommitResult;
    if op.id in db.jobs && db.jobs[op.id].state == Inferencing {
      InferencingHasNoRows(db, budget, op.id);
      CommitShape(db, op.id, op.result, op.sidecar, op.rows);
      CommitAddsRows(db, op.id, op.result, op.sidecar, op.rows);
      AddedTouchesNone(db, op.id, op.result, op.sidecar, op.rows);
    } else {
      RefusedCommit(db, budget, op);
      NothingTouchesNone(db);
    }
  }

  lemma NothingTouchesNone(db: Db)
    ensures AllUntouched(db, db)
  {
  }

  lemma AddedTouchesNone(db: Db, id: Id, result: Bytes, sidecar: Option<Sidecar>, rows: seq<Message>)
    requires id in db.jobs && db.jobs[id].state == Inferencing
    requires forall r :: r in db.outbox ==> r < db.nextRow && db.outbox[r].job != id
    requires RowsAdded(db, WithRows(db, id, result, sidecar, rows), id, rows)
    ensures AllUntouched(db, WithRows(db, id, result, sidecar, rows))
  {
    hide InsertRows;
  }

  lemma RetryTouchesNone(db: Db, id: Id)
    ensures AllUntouched(db, Committed(db, RetryPublication(db, id)))
  {
  }

  lemma ReinferTouchesNone(db: Db, id: Id, reason: string)
    ensures AllUntouched(db, Committed(db, RequeueForReinference(db, id, reason)))
  {
    if id in db.jobs && Invalidatable(db.jobs[id].state) { ReinferShape(db, id, reason); }
  }

  lemma IntentTouchesNone(db: Db, intent: Intent, now: int)
    ensures AllUntouched(db, Committed(db, RecordIntent(db, intent, now)))
  {
  }

  lemma CompleteTouchesNone(db: Db, id: Id, observed: string)
    ensures AllUntouched(db, Committed(db, CompleteCleanup(db, id, observed)))
  {
  }

  lemma FailTouchesNone(db: Db, id: Id, error: string)
    ensures AllUntouched(db, Committed(db, FailCleanup(db, id, error)))
  {
  }

  lemma BesideTouchesNone(db: Db, budget: int, op: Op)
    requires Inv(db, budget) && Beside(op)
    ensures AllUntouched(db, Perform(db, budget, op))
  {
    hide Inv, AllUntouched;
    match op
    case TransitionOp(id, expected, next, f) => SetStateTouchesNone(db, id, expected, next, f);
    case CommitOp(_, _, _, _) => CommitTouchesNone(db, budget, op);
    case RetryOp(id) => RetryTouchesNone(db, id);
    case ReinferOp(id, reason) => ReinferTouchesNone(db, id, reason);
    case IntentOp(intent, now) => IntentTouchesNone(db, intent, now);
    case CompleteOp(id, observed) => CompleteTouchesNone(db, id, observed);
    case FailOp(id, error) => FailTouchesNone(db, id, error);
    case _ => ResetTouchesNone(db, budget, op);
  }

  lemma ResetTouchesNone(db: Db, budget: int, op: Op)
    requires op.AdmitOp? || op.UnblockOp? || op.RecoverOp?
    ensures AllUntouched(db, Perform(db, budget, op))
  {
  }

  /** One fetched row. */
  datatype Fetched = Fetched(id: nat, row: OutboxRow)

  /** A row a drain holds is as it was fetched, in a job still being published or already past it, or it
      is gone for good. */
  ghost predicate Holds(db: Db, f: Fetched) {
    f.id < db.nextRow && (f.id in db.outbox ==>
      db.outbox[f.id] == f.row && f.row.job in db.jobs
      && (db.jobs[f.row.job].state == PublishPending || PastPublication(db.jobs[f.row.job].state)))
  }

  ghost predicate AllHeld(db: Db, batch: seq<Fetched>) {
    && (forall k :: 0 <= k < |batch| ==> Holds(db, batch[k]))
    && (forall i, j :: 0 <= i < j < |batch| ==> batch[i].id != batch[j].id)
  }

  lemma UntouchedStillHeld(db: Db, after: Db, batch: seq<Fetched>)
    requires AllHeld(db, batch) && AllUntouched(db, after)
    ensures AllHeld(after, batch)
  {
    forall k | 0 <= k < |batch| ensures Holds(after, batch[k]) {
      var f := batch[k];
      if f.id in after.outbox {
        assert f.id in db.outbox && after.outbox[f.id].job == f.row.job;
        assert Untouched(db, after, f.row.job);
      }
    }
  }

  // -- judging one failed row --------------------------------------------------------------------

  /** A row whose last allowed failure was just counted. Its job still has that row, or is within its
      budget without it, and nobody else gives it up. */
  ghost predicate Judging(db: Db, f: Fetched, max: int) {
    && Holds(db, f) && !f.row.published && f.row.attempts >= max
    && f.row.job in db.jobs && db.jobs[f.row.job].state != PublishExhausted
    && (f.id !in db.outbox ==> WithinBudget(db, f.row.job, max))
  }

  /** Losing the row means losing publication; a new commit brings new rows that have not failed. */
  lemma LosingTheRow(db: Db, after: Db, f: Fetched, max: int)
    requires Holds(db, f) && f.id in db.outbox && f.id !in after.outbox && f.row.job in after.jobs
    requires Untouched(db, after, f.row.job) && max >= 1
    ensures WithinBudget(after, f.row.job, max)
  {
  }

  lemma StillJudging(db: Db, after: Db, f: Fetched, max: int)
    requires AllUntouched(db, after) && Judging(db, f, max) && max >= 1
    ensures Judging(after, f, max)
  {
    OneHeld(db, f);
    UntouchedStillHeld(db, after, [f]);
    assert [f][0] == f;
    assert Untouched(db, after, f.row.job);
    hide Untouched, WithinBudget, Holds;
    StaysUnexhausted(db, after, f.row.job);
    if f.id !in after.outbox {
      if f.id in db.outbox {
        LosingTheRow(db, after, f, max);
      } else {
        UntouchedIsWithinBudget(db, after, f.row.job, max);
      }
    }
  }

  lemma OneHeld(db: Db, f: Fetched)
    requires Holds(db, f)
    ensures AllHeld(db, [f])
  {
  }

  lemma StaysUnexhausted(db: Db, after: Db, id: Id)
    requires AllUntouched(db, after) && id in db.jobs && db.jobs[id].state != PublishExhausted
    ensures id in after.jobs && after.jobs[id].state != PublishExhausted
  {
    assert Untouched(db, after, id);
  }

  /** Giving up the job of a row that was judged is right exactly when the row is still there, or the job
      is not being published any more, so that the ledger refuses. */
  lemma JudgedFairly(db: Db, f: Fetched, max: int, astray: set<Id>)
    requires Judging(db, f, max) && Budgeted(db, max, astray + {f.row.job}) && f.row.job !in astray
    ensures Budgeted(Committed(db, ExhaustPublish(db, f.row.job)), max, astray + {f.row.job})
    ensures Budgeted(Committed(db, ExhaustPublish(db, f.row.job)), max, astray)
      <==> f.id in db.outbox || db.jobs[f.row.job].state != PublishPending
  {
    var id := f.row.job;
    var after := Committed(db, ExhaustPublish(db, id));
    forall other | other in db.jobs && other != id && other !in astray ensures WithinBudget(after, other, max) {
      SameRowsSameBudget(db, after, other, max);
    }
    assert Spent(after, id, max) <==> Spent(db, id, max);
    assert WithinBudget(after, id, max) <==> f.id in db.outbox || db.jobs[id].state != PublishPending;
  }

  /** Over whatever others do between counting a row's last allowed failure and giving its job up, giving
      it up keeps the budget exactly when the counted row is still in the outbox, or the job is no longer
      waiting for publication. */
  lemma {:induction false} ExhaustionIsJust(db: Db, budget: int, ops: seq<Op>, f: Fetched, max: int, astray: set<Id>)
    requires Inv(db, budget) && max >= 1 && forall k :: 0 <= k < |ops| ==> Beside(ops[k])
    requires Judging(db, f, max) && Budgeted(db, max, astray + {f.row.job}) && f.row.job !in astray
    ensures var last := Run(db, budget, ops);
      && f.row.job in last.jobs
      && (Budgeted(Committed(last, ExhaustPublish(last, f.row.job)), max, astray)
          <==> f.id in last.outbox || last.jobs[f.row.job].state != PublishPending)
    decreases |ops|
  {
    hide Inv, Perform, Untouched, Judging, Budgeted, ExhaustPublish;
    if ops == [] {
      JudgedFairly(db, f, max, astray);
      JudgedIsKnown(db, f, max);
    } else {
      var after := Perform(db, budget, ops[0]);
      OpKeeps(db, budget, ops[0]);
      BesideTouchesNone(db, budget, ops[0]);
      UntouchedIsBudgeted(db, after, max, astray + {f.row.job});
      StillJudging(db, after, f, max);
      ExhaustionIsJust(after, budget, ops[1..], f, max, astray);
    }
  }

  lemma JudgedIsKnown(db: Db, f: Fetched, max: int)
    requires Judging(db, f, max)
    ensures f.row.job in db.jobs && f.id < db.nextRow && (f.id in db.outbox ==> db.outbox[f.id] == f.row)
  {
  }

  /** What an operator and the scheduler may do in that gap: the job is inferred again and committed again. */
  function Recommit(id: Id, message: Message): seq<Op> {
    [ReinferOp(id, "invalidated"), TransitionOp(id, Ready, Claimed, NO_FIELDS), TransitionOp(id, Claimed, WaitingModel, NO_FIELDS),
     TransitionOp(id, WaitingModel, Inferencing, NO_FIELDS), CommitOp(id, "again", None, [message])]
  }

  /** After that the exhaustion is accepted, for a row that is gone, and the budget is broken: the job is
      given up although its new row never failed. */
  lemma RecommitIsGivenUp(db: Db, budget: int, f: Fetched, max: int, message: Message)
    requires Inv(db, budget) && max >= 1 && Judging(db, f, max) && Budgeted(db, max, {f.row.job})
    requires f.id in db.outbox && db.jobs[f.row.job].state == PublishPending
    ensures var ops := Recommit(f.row.job, message);
            var last := Run(db, budget, ops);
      && (forall k :: 0 <= k < |ops| ==> Beside(ops[k]))
      && ExhaustPublish(last, f.row.job).Ok? && !Budgeted(ExhaustPublish(last, f.row.job).value, max, {})
  {
    hide Inv, InsertRows, Budgeted, Judging;
    var id := f.row.job;
    var ops := Recommit(id, message);
    var last := Run(db, budget, ops);
    JudgedIsKnown(db, f, max);
    RecommitShape(db, budget, f, message);
    assert {} + {id} == {id};
    ExhaustionIsJust(db, budget, ops, f, max, {});
  }

  lemma RecommitShape(db: Db, budget: int, f: Fetched, message: Message)
    requires f.id < db.nextRow && f.id in db.outbox && db.outbox[f.id].job == f.row.job
    requires f.row.job in db.jobs && db.jobs[f.row.job].state == PublishPending
    ensures var last := Run(db, budget, Recommit(f.row.job, message));
            f.id !in last.outbox && f.row.job in last.jobs && last.jobs[f.row.job].state == PublishPending
  {
    hide Perform, Run, InsertRows;
    var id := f.row.job;
    var ops := Recommit(id, message);
    Forgets(db, budget, id, f.id);
    var ready := Perform(db, budget, ops[0]);
    RunNext(db, budget, ops);
    EdgeTaken(ready, budget, id, Ready, Claimed, ops[1..]);
    var claimed := Perform(ready, budget, ops[1]);
    EdgeTaken(claimed, budget, id, Claimed, WaitingModel, ops[1..][1..]);
    var waiting := Perform(claimed, budget, ops[2]);
    EdgeTaken(waiting, budget, id, WaitingModel, Inferencing, ops[1..][1..][1..]);
    var inferring := Perform(waiting, budget, ops[3]);
    CommitsAnew(inferring, budget, id, message, f.id);
    RunNext(inferring, budget, [ops[4]]);
    assert ops[1..][1..][1..][1..] == [ops[4]];
    RunNone(Perform(inferring, budget, ops[4]), budget, [ops[4]][1..]);
  }

  lemma Forgets(db: Db, budget: int, id: Id, row: nat)
    requires id in db.jobs && db.jobs[id].state == PublishPending && row in db.outbox && db.outbox[row].job == id
    ensures var after := Perform(db, budget, ReinferOp(id, "invalidated"));
            row !in after.outbox && id in after.jobs && after.jobs[id].state == Ready && after.nextRow == db.nextRow
  {
  }

  /** One edge of a claim, and the run it begins. */
  lemma EdgeTaken(db: Db, budget: int, id: Id, current: JobState, next: JobState, ops: seq<Op>)
    requires id in db.jobs && db.jobs[id].state == current && IsLegal(current, next)
    requires ops != [] && ops[0] == TransitionOp(id, current, next, NO_FIELDS)
    ensures var after := Perform(db, budget, ops[0]);
      && id in after.jobs && after.jobs[id].state == next && after.outbox == db.outbox && after.nextRow == db.nextRow
      && Run(db, budget, ops) == Run(after, budget, ops[1..])
  {
    hide IsLegal;
    RunNext(db, budget, ops);
  }

  lemma CommitsAnew(db: Db, budget: int, id: Id, message: Message, row: nat)
    requires id in db.jobs && db.jobs[id].state == Inferencing && row < db.nextRow && row !in db.outbox
    ensures var after := Perform(db, budget, CommitOp(id, "again", None, [message]));
            id in after.jobs && after.jobs[id].state == PublishPending && row !in after.outbox
  {
    hide InsertRows, CommitResult;
    CommitShape(db, id, "again", None, [message]);
    InsertedRows(db, id, [message]);
  }

  /** A confirmation takes a row out of the reckoning. */
  lemma ConfirmationIsBudgeted(db: Db, f: Fetched, max: int, astray: set<Id>)
    requires Budgeted(db, max, astray) && Holds(db, f)
    ensures Budgeted(Committed(db, MarkPublished(db, f.id)), max, astray)
    ensures Committed(db, MarkPublished(db, f.id)).jobs.Keys == db.jobs.Keys
  {
    var r := MarkPublished(db, f.id);
    if r.Ok? {
      var id := f.row.job;
      forall other | other in r.value.jobs && other !in astray ensures WithinBudget(r.value, other, max) {
        assert WithinBudget(db, other, max);
        if other != id { SameRowsSameBudget(db, r.value, other, max); }
      }
    }
  }

  lemma ConfirmationStillHeld(db: Db, f: Fetched, rest: seq<Fetched>)
    requires AllHeld(db, [f] + rest)
    ensures AllHeld(Committed(db, MarkPublished(db, f.id)), rest)
  {
    var r := MarkPublished(db, f.id);
    forall k | 0 <= k < |rest| ensures Holds(db, rest[k]) && rest[k].id != f.id {
      assert ([f] + rest)[k + 1] == rest[k] && ([f] + rest)[0] == f;
    }
    forall i, j | 0 <= i < j < |rest| ensures rest[i].id != rest[j].id {
      assert ([f] + rest)[i + 1] == rest[i] && ([f] + rest)[j + 1] == rest[j];
    }
  }

  /** One operation beside a drain keeps the gate, the budget, and what the drain holds or judges. */
  lemma BesideStep(t: Trail, budget: int, op: Op, max: int, astray: set<Id>, judging: Option<Fetched>, held: seq<Fetched>)
    requires Gated(t, budget) && Budgeted(t.db, max, astray) && max >= 1 && AllHeld(t.db, held)
    requires Beside(op) && (judging.Some? ==> Judging(t.db, judging.value, max))
    ensures var u := Follow(t, budget, op);
      && u.db == Perform(t.db, budget, op) && u.log == t.log && Gated(u, budget) && t.db.jobs.Keys <= u.db.jobs.Keys
      && Budgeted(u.db, max, astray) && AllHeld(u.db, held) && (judging.Some? ==> Judging(u.db, judging.value, max))
  {
    hide Inv, Confirmed, Truthful, Complete, Budgeted, AllHeld, Judging, Perform, Untouched;
    OpStaysGated(t, budget, op);
    BesideTouchesNone(t.db, budget, op);
    var after := Perform(t.db, budget, op);
    UntouchedIsBudgeted(t.db, after, max, astray);
    UntouchedStillHeld(t.db, after, held);
    if judging.Some? { StillJudging(t.db, after, judging.value, max); }
  }

  /** A fetched row as a failure leaves it. */
  function Again(f: Fetched, error: string): Fetched {
    f.(row := f.row.(attempts := f.row.attempts + 1, lastError := Some(error)))
  }

  lemma NothingHeld(db: Db)
    ensures AllHeld(db, [])
  {
  }

  /** Counting a failure of a held row either keeps the budget or puts its job up for judgement. */
  lemma HeldFailure(db: Db, f: Fetched, rest: seq<Fetched>, error: string, max: int, astray: set<Id>)
    requires Budgeted(db, max, astray) && AllHeld(db, [f] + rest) && !f.row.published && f.row.job in db.jobs
    ensures var r := MarkPublishAttempt(db, f.id, error);
      && (r.Ok? <==> f.id in db.outbox)
      && (r.Ok? && f.row.attempts + 1 >= max ==>
            Budgeted(r.value, max, astray + {f.row.job}) && Judging(r.value, Again(f, error), max))
      && (r.Ok? && f.row.attempts + 1 < max ==> Budgeted(r.value, max, astray))
  {
    assert Holds(db, ([f] + rest)[0]);
    if f.id in db.outbox {
      FailureSparesOthers(db, f.id, error, max);
      if db.jobs[f.row.job].state == PublishPending && f.row.job !in astray { FailureOverdraws(db, f.id, error, max); }
    }
  }

  lemma FewerAstray(db: Db, max: int, some: set<Id>, more: set<Id>)
    requires some <= more
    ensures Budgeted(db, max, some) ==> Budgeted(db, max, more)
  {
  }

  /** A confirmation leaves the row published, or finds it gone. */
  lemma MarkIsFinal(db: Db, f: Fetched)
    requires Holds(db, f)
    ensures var after := Committed(db, MarkPublished(db, f.id));
            f.id in after.outbox ==> after.outbox[f.id].published && MarkPublished(db, f.id).Ok?
  {
  }

  /** What is committed only grows. */
  predicate Extends(before: map<nat, Message>, after: map<nat, Message>) {
    forall r :: r in before ==> r in after && after[r] == before[r]
  }

  function Snapshot(db: Db, ids: seq<nat>): (rows: seq<Fetched>)
    requires forall k :: 0 <= k < |ids| ==> ids[k] in db.outbox
    ensures |rows| == |ids| && forall k :: 0 <= k < |rows| ==> rows[k] == Fetched(ids[k], db.outbox[ids[k]])
  {
    seq(|ids|, k requires 0 <= k < |ids| => Fetched(ids[k], db.outbox[ids[k]]))
  }

  function RowIds(rows: seq<Fetched>): (ids: seq<nat>)
    ensures |ids| == |rows| && forall k :: 0 <= k < |ids| ==> ids[k] == rows[k].id
  {
    seq(|rows|, k requires 0 <= k < |rows| => rows[k].id)
  }

  /** Rows fit to be attempted: unpublished, of a known job, with the bytes their commit froze. */
  ghost predicate Offered(db: Db, committed: map<nat, Message>, rows: seq<Fetched>) {
    forall k :: 0 <= k < |rows| ==>
      !rows[k].row.published && rows[k].row.job in db.jobs
      && rows[k].id in committed && committed[rows[k].id] == rows[k].row.message
  }

  lemma SnapshotIsHeld(t: Trail, budget: int, ids: seq<nat>, limit: nat)
    requires Gated(t, budget) && FirstEligible(t.db, ids, 0, limit)
    ensures |ids| <= limit && (forall k :: 0 <= k < |ids| ==> ids[k] in t.db.outbox)
    ensures AllHeld(t.db, Snapshot(t.db, ids)) && Offered(t.db, t.committed, Snapshot(t.db, ids))
  {
    hide Confirmed, Complete;
  }

  lemma FirstIsHeld(db: Db, f: Fetched, rest: seq<Fetched>)
    requires AllHeld(db, [f] + rest)
    ensures Holds(db, f)
  {
    assert ([f] + rest)[0] == f;
  }

  /** The messages some fetched rows stand for. */
  function Entries(rows: seq<Fetched>): (entries: seq<Entry>)
    ensures |entries| == |rows|
  {
    seq(|rows|, k requires 0 <= k < |rows| => Entry(rows[k].id, rows[k].row.message))
  }

  lemma OneMoreEntry(rows: seq<Fetched>, k: nat)
    requires k < |rows|
    ensures Entries(rows[..k + 1]) == Entries(rows[..k]) + [Entry(rows[k].id, rows[k].row.message)]
  {
  }

  lemma OfferedAll(db: Db, committed: map<nat, Message>, rows: seq<Fetched>)
    requires Offered(db, committed, rows)
    ensures forall k :: 0 <= k < |rows| ==> !rows[k].row.published && rows[k].row.job in db.jobs
    ensures forall k :: 0 <= k < |rows| ==> rows[k].id in committed && committed[rows[k].id] == rows[k].row.message
  {
  }
}
