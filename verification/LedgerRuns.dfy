// What every ledger operation keeps, over any run of operations in any order: the reservation
// budget, who holds a reservation, where results and outbox rows may exist, and that a terminal
// job never moves again. Recovery is one of the operations.

module LedgerRuns {
  import opened Wrappers
  import opened Lifecycle
  import opened Sums
  import opened LedgerSpec
  import opened LedgerFacts

  datatype Op =
    | AdmitOp(job: Job, reserve: int, now: int)
    | TransitionOp(id: Id, expected: JobState, next: JobState, fields: Fields)
    | CommitOp(id: Id, result: Bytes, sidecar: Option<Sidecar>, rows: seq<Message>)
    | PublishedOp(row: nat)
    | AttemptOp(row: nat, error: string)
    | RetryOp(id: Id)
    | IntentOp(intent: Intent, now: int)
    | CompleteOp(id: Id, observed: string)
    | FailOp(id: Id, error: string)
    | ReinferOp(id: Id, reason: string)
    | UnblockOp(route: Option<string>)
    | RecoverOp(now: int)

  function Committed(db: Db, r: Result<Db, Refusal>): Db {
    if r.Ok? then r.value else db
  }

  /** The database after one operation; a refused operation changes nothing. */
  ghost function Perform(db: Db, budget: int, op: Op): Db {
    match op
    case AdmitOp(job, reserve, now) => var r := Admit(db, budget, job, reserve, now); if r.Ok? then r.value.0 else db
    case TransitionOp(id, expected, next, f) => Committed(db, SetState(db, id, expected, next, f))
    case CommitOp(id, result, sidecar, rows) => Committed(db, CommitResult(db, id, result, sidecar, rows))
    case PublishedOp(row) => Committed(db, MarkPublished(db, row))
    case AttemptOp(row, error) => Committed(db, MarkPublishAttempt(db, row, error))
    case RetryOp(id) => Committed(db, RetryPublication(db, id))
    case IntentOp(intent, now) => Committed(db, RecordIntent(db, intent, now))
    case CompleteOp(id, observed) => Committed(db, CompleteCleanup(db, id, observed))
    case FailOp(id, error) => Committed(db, FailCleanup(db, id, error))
    case ReinferOp(id, reason) => Committed(db, RequeueForReinference(db, id, reason))
    case UnblockOp(route) => RequeueBlocked(db, route)
    case RecoverOp(now) => Recover(db, now)
  }

  ghost function Run(db: Db, budget: int, ops: seq<Op>): Db
    decreases |ops|
  {
    if ops == [] then db else Run(Perform(db, budget, ops[0]), budget, ops[1..])
  }

  lemma RunNext(db: Db, budget: int, ops: seq<Op>)
    requires ops != []
    ensures Run(db, budget, ops) == Run(Perform(db, budget, ops[0]), budget, ops[1..])
  {
  }

  lemma RunNone(db: Db, budget: int, ops: seq<Op>)
    requires ops == []
    ensures Run(db, budget, ops) == db
  {
  }

  // -- the invariant -----------------------------------------------------------------------------

  /** Reserved capacity stays within the budget, and exactly the admitted, unfinished jobs hold some. */
  ghost predicate Reserved(db: Db, budget: int) {
    && (Total(db.reservations) == 0 || Total(db.reservations) <= budget)
    && (forall id :: id in db.reservations <==> id in db.jobs && !Terminal(db.jobs[id].state))
  }

  /** Rows carry fresh ids and belong to jobs at or past a committed result, as do result bytes. */
  ghost predicate ResultsPlaced(db: Db) {
    && (forall r :: r in db.outbox ==>
          r < db.nextRow && db.outbox[r].job in db.jobs && HasResult(db.jobs[db.outbox[r].job].state))
    && (forall id :: id in db.jobs && db.jobs[id].result.Some? ==> HasResult(db.jobs[id].state))
    && (forall id :: id in db.intents ==> id in db.jobs)
  }

  ghost predicate Inv(db: Db, budget: int) {
    Keyed(db.jobs) && Reserved(db, budget) && ResultsPlaced(db)
  }

  /** Every job at or past a committed result has its bytes, and every job past publication has all
      its gating rows confirmed. */
  ghost predicate Confirmed(db: Db) {
    && (forall id :: id in db.jobs && HasResult(db.jobs[id].state) ==> db.jobs[id].result.Some?)
    && (forall id :: id in db.jobs && PastPublication(db.jobs[id].state) ==> GatingDone(db.outbox, id))
  }

  /** The two forward edges no caller asks for by a bare transition: committing a result and
      confirming its publication each have an operation of their own. */
  predicate BareEdge(op: Op) {
    op.TransitionOp? &&
    ((op.expected == Inferencing && op.next == ResultCommitted) || (op.expected == PublishPending && op.next == Published))
  }

  // -- one operation -----------------------------------------------------------------------------

  /** One row of `jobs` rewritten in place, its reservation dropped if it became terminal. */
  function Rewritten(db: Db, id: Id, job: Job): Db {
    db.(jobs := db.jobs[id := job], reservations := if Terminal(job.state) then db.reservations - {id} else db.reservations)
  }

  lemma RewriteReserves(db: Db, budget: int, id: Id, job: Job)
    requires Reserved(db, budget) && id in db.jobs
    requires Terminal(db.jobs[id].state) ==> Terminal(job.state)
    ensures Reserved(Rewritten(db, id, job), budget)
  {
    TotalDrop(db.reservations, id);
    var after := Rewritten(db, id, job);
    forall other ensures other in after.reservations <==> other in after.jobs && !Terminal(after.jobs[other].state) {
      assert other in db.reservations <==> other in db.jobs && !Terminal(db.jobs[other].state);
    }
  }

  lemma RewritePlaces(db: Db, id: Id, job: Job)
    requires ResultsPlaced(db) && id in db.jobs
    requires HasResult(db.jobs[id].state) || job.result.Some? ==> HasResult(job.state)
    ensures ResultsPlaced(Rewritten(db, id, job))
  {
  }

  lemma RewriteKeeps(db: Db, budget: int, id: Id, job: Job)
    requires Inv(db, budget) && id in db.jobs && job.id == id
    requires Terminal(db.jobs[id].state) ==> Terminal(job.state)
    requires HasResult(db.jobs[id].state) || job.result.Some? ==> HasResult(job.state)
    ensures Inv(Rewritten(db, id, job), budget)
  {
    RewriteReserves(db, budget, id, job);
    RewritePlaces(db, id, job);
  }

  lemma RewriteConfirms(db: Db, id: Id, job: Job)
    requires Confirmed(db) && id in db.jobs
    requires HasResult(job.state) ==> job.result.Some?
    requires PastPublication(job.state) ==> GatingDone(db.outbox, id)
    ensures Confirmed(Rewritten(db, id, job))
  {
  }

  lemma SetStateKeeps(db: Db, budget: int, id: Id, expected: JobState, next: JobState, f: Fields)
    requires Inv(db, budget)
    ensures Inv(Committed(db, SetState(db, id, expected, next, f)), budget)
  {
    if SetState(db, id, expected, next, f).Ok? {
      RewriteKeeps(db, budget, id, Moved(db.jobs[id], next, f));
    }
  }

  lemma SetStateConfirms(db: Db, id: Id, expected: JobState, next: JobState, f: Fields)
    requires Confirmed(db) && !BareEdge(TransitionOp(id, expected, next, f))
    ensures Confirmed(Committed(db, SetState(db, id, expected, next, f)))
  {
    if SetState(db, id, expected, next, f).Ok? {
      RewriteConfirms(db, id, Moved(db.jobs[id], next, f));
    }
  }

  lemma {:induction false} InsertedRows(db: Db, id: Id, rows: seq<Message>)
    ensures var r := InsertRows(db, id, rows);
      && (forall k :: k in r.outbox ==>
            (k in db.outbox && r.outbox[k] == db.outbox[k]) || (db.nextRow <= k < r.nextRow && r.outbox[k].job == id))
      && r.nextRow == db.nextRow + |rows|
    decreases |rows|
  {
    if rows != [] {
      var row := OutboxRow(id, rows[0], 0, false, None);
      InsertedRows(db.(outbox := db.outbox[db.nextRow := row], nextRow := db.nextRow + 1), id, rows[1..]);
    }
  }

  /** The database a commit leaves behind, seen from outside: one job advanced, rows added. */
  lemma CommitShape(db: Db, id: Id, result: Bytes, sidecar: Option<Sidecar>, rows: seq<Message>)
    requires id in db.jobs && db.jobs[id].state == Inferencing
    ensures CommitResult(db, id, result, sidecar, rows) == Ok(WithRows(db, id, result, sidecar, rows))
  {
    hide InsertRows, SetState, Advanced;
    var base := WithResult(db, id, result, sidecar);
    InsertedShape(db, base, id, rows);
    Advance(InsertRows(base, id, rows), id, rows);
    RewriteTwice(db.jobs, id, base.jobs[id], if rows == [] then ResultCommitted else PublishPending);
  }

  lemma InsertedShape(db: Db, base: Db, id: Id, rows: seq<Message>)
    requires base == db.(jobs := base.jobs)
    ensures InsertRows(base, id, rows) == base.(outbox := InsertRows(db, id, rows).outbox, nextRow := db.nextRow + |rows|)
  {
    InsertKeepsJobs(base, id, rows);
    InsertIgnoresJobs(db, base, id, rows);
  }

  lemma RewriteTwice(jobs: map<Id, Job>, id: Id, job: Job, state: JobState)
    ensures jobs[id := job][id := job.(state := state)] == jobs[id := job.(state := state)]
  {
  }

  /** The two compare-and-sets a commit ends with. */
  lemma Advance(db: Db, id: Id, rows: seq<Message>)
    requires id in db.jobs && db.jobs[id].state == Inferencing
    ensures Advanced(db, id, rows)
         == Ok(db.(jobs := db.jobs[id := db.jobs[id].(state := if rows == [] then ResultCommitted else PublishPending)]))
  {
    RewriteTwice(db.jobs, id, db.jobs[id].(state := ResultCommitted), PublishPending);
  }

  /** The job after its commit. */
  function Finished(job: Job, result: Bytes, sidecar: Option<Sidecar>, rows: seq<Message>): Job {
    job.(result := Some(result), sidecar := sidecar, state := if rows == [] then ResultCommitted else PublishPending)
  }

  function WithRows(db: Db, id: Id, result: Bytes, sidecar: Option<Sidecar>, rows: seq<Message>): Db
    requires id in db.jobs
  {
    db.(jobs := db.jobs[id := Finished(db.jobs[id], result, sidecar, rows)],
        outbox := InsertRows(db, id, rows).outbox, nextRow := db.nextRow + |rows|)
  }

  lemma {:induction false} InsertIgnoresJobs(db: Db, other: Db, id: Id, rows: seq<Message>)
    requires other == db.(jobs := other.jobs)
    ensures InsertRows(other, id, rows).outbox == InsertRows(db, id, rows).outbox
    decreases |rows|
  {
    if rows != [] {
      var row := OutboxRow(id, rows[0], 0, false, None);
      InsertIgnoresJobs(db.(outbox := db.outbox[db.nextRow := row], nextRow := db.nextRow + 1),
                        other.(outbox := other.outbox[other.nextRow := row], nextRow := other.nextRow + 1), id, rows[1..]);
    }
  }

  lemma CommitKeeps(db: Db, budget: int, id: Id, result: Bytes, sidecar: Option<Sidecar>, rows: seq<Message>)
    requires Inv(db, budget)
    ensures Inv(Committed(db, CommitResult(db, id, result, sidecar, rows)), budget)
  {
    if id in db.jobs && db.jobs[id].state == Inferencing {
      CommitShape(db, id, result, sidecar, rows);
      var job := Finished(db.jobs[id], result, sidecar, rows);
      RewriteKeeps(db, budget, id, job);
      InsertedRows(db, id, rows);
      var middle := Rewritten(db, id, job);
      var after := WithRows(db, id, result, sidecar, rows);
      forall r | r in after.outbox
        ensures r < after.nextRow && after.outbox[r].job in after.jobs && HasResult(after.jobs[after.outbox[r].job].state)
      {
        assert r in db.outbox ==> middle.outbox[r] == db.outbox[r];
      }
    }
  }

  lemma CommitConfirms(db: Db, id: Id, result: Bytes, sidecar: Option<Sidecar>, rows: seq<Message>)
    requires Confirmed(db)
    ensures Confirmed(Committed(db, CommitResult(db, id, result, sidecar, rows)))
  {
    if id in db.jobs && db.jobs[id].state == Inferencing {
      CommitShape(db, id, result, sidecar, rows);
      RewriteConfirms(db, id, Finished(db.jobs[id], result, sidecar, rows));
      InsertedRows(db, id, rows);
      var after := WithRows(db, id, result, sidecar, rows);
      forall other | other in after.jobs && PastPublication(after.jobs[other].state)
        ensures GatingDone(after.outbox, other)
      {
        assert other != id;
        assert GatingDone(db.outbox, other);
      }
    }
  }

  lemma AdmitReserves(db: Db, budget: int, job: Job, reserve: nat)
    requires Reserved(db, budget) && job.id !in db.jobs && Total(db.reservations) + reserve <= budget && !Terminal(job.state)
    ensures Reserved(db.(jobs := db.jobs[job.id := job], reservations := db.reservations[job.id := reserve]), budget)
  {
    assert job.id !in db.reservations;
    TotalInsert(db.reservations, job.id, reserve);
  }

  lemma AdmitPlaces(db: Db, job: Job, reservations: map<Id, nat>)
    requires ResultsPlaced(db) && job.id !in db.jobs && job.result.None?
    ensures ResultsPlaced(db.(jobs := db.jobs[job.id := job], reservations := reservations))
  {
  }

  lemma AdmitKeeps(db: Db, budget: int, job: Job, reserve: int, now: int)
    requires Inv(db, budget)
    ensures Inv(Perform(db, budget, AdmitOp(job, reserve, now)), budget)
  {
    hide Reserved, ResultsPlaced;
    var r := Admit(db, budget, job, reserve, now);
    if r.Ok? && r.value.1 {
      var row := job.(createdAt := now, result := None, sidecar := None, lastError := None);
      AdmitReserves(db, budget, row, reserve);
      AdmitPlaces(db, row, r.value.0.reservations);
    }
  }

  lemma AdmitConfirms(db: Db, budget: int, job: Job, reserve: int, now: int)
    requires Confirmed(db)
    ensures Confirmed(Perform(db, budget, AdmitOp(job, reserve, now)))
  {
    var after := Perform(db, budget, AdmitOp(job, reserve, now));
    forall other | other in after.jobs && PastPublication(after.jobs[other].state)
      ensures GatingDone(after.outbox, other)
    {
      assert after.jobs[other] == db.jobs[other];
    }
  }

  /** Rows edited in place: same ids, same jobs, nothing unconfirmed. */
  ghost predicate RowsEdited(before: map<nat, OutboxRow>, after: map<nat, OutboxRow>) {
    forall r :: r in after ==>
      r in before && after[r].job == before[r].job && after[r].message == before[r].message
      && (before[r].published ==> after[r].published)
  }

  lemma EditKeeps(db: Db, budget: int, outbox: map<nat, OutboxRow>)
    requires RowsEdited(db.outbox, outbox)
    ensures Inv(db, budget) ==> Inv(db.(outbox := outbox), budget)
    ensures Confirmed(db) ==> Confirmed(db.(outbox := outbox))
  {
    forall other | Confirmed(db) && other in db.jobs && PastPublication(db.jobs[other].state)
      ensures GatingDone(outbox, other)
    {
      assert GatingDone(db.outbox, other);
    }
  }

  lemma PublishedKeeps(db: Db, budget: int, row: nat)
    requires Inv(db, budget)
    ensures var after := Committed(db, MarkPublished(db, row));
            Inv(after, budget) && (Confirmed(db) ==> Confirmed(after))
  {
    hide Inv, Confirmed, SetState;
    if row in db.outbox && db.outbox[row].job in db.jobs {
      var outbox := db.outbox[row := db.outbox[row].(published := true, lastError := None)];
      var marked := db.(outbox := outbox);
      EditKeeps(db, budget, outbox);
      var id := db.outbox[row].job;
      if GatingDone(outbox, id) && db.jobs[id].state == PublishPending {
        SetStateKeeps(marked, budget, id, PublishPending, Published, NO_FIELDS);
        if Confirmed(db) { PublishConfirms(marked, id); }
      }
    }
  }

  lemma PublishConfirms(db: Db, id: Id)
    requires Confirmed(db) && id in db.jobs && db.jobs[id].state == PublishPending && GatingDone(db.outbox, id)
    ensures Confirmed(Committed(db, SetState(db, id, PublishPending, Published, NO_FIELDS)))
  {
    RewriteConfirms(db, id, Moved(db.jobs[id], Published, NO_FIELDS));
  }

  lemma AttemptKeeps(db: Db, budget: int, row: nat, error: string)
    requires Inv(db, budget)
    ensures var after := Committed(db, MarkPublishAttempt(db, row, error));
            Inv(after, budget) && (Confirmed(db) ==> Confirmed(after))
  {
    var r := MarkPublishAttempt(db, row, error);
    if r.Ok? { EditKeeps(db, budget, r.value.outbox); }
  }

  lemma RetryKeeps(db: Db, budget: int, id: Id)
    requires Inv(db, budget)
    ensures var after := Committed(db, RetryPublication(db, id));
            Inv(after, budget) && (Confirmed(db) ==> Confirmed(after))
  {
    hide Inv, Confirmed;
    var moved := SetState(db, id, PublishExhausted, PublishPending, NO_FIELDS);
    if moved.Ok? {
      SetStateKeeps(db, budget, id, PublishExhausted, PublishPending, NO_FIELDS);
      if Confirmed(db) { SetStateConfirms(db, id, PublishExhausted, PublishPending, NO_FIELDS); }
      EditKeeps(moved.value, budget, Restarted(db.outbox, id));
    }
  }

  lemma IntentsKeep(db: Db, budget: int, intents: map<Id, IntentRow>)
    requires Inv(db, budget) && intents.Keys <= db.jobs.Keys
    ensures Inv(db.(intents := intents), budget)
    ensures Confirmed(db) ==> Confirmed(db.(intents := intents))
  {
  }

  lemma IntentsAreKnown(db: Db, budget: int)
    requires Inv(db, budget)
    ensures db.intents.Keys <= db.jobs.Keys
  {
  }

  lemma IntentKeeps(db: Db, budget: int, intent: Intent, now: int)
    requires Inv(db, budget)
    ensures var after := Committed(db, RecordIntent(db, intent, now));
            Inv(after, budget) && (Confirmed(db) ==> Confirmed(after))
  {
    hide Inv, Confirmed, SetState, IsLegal;
    IntentsAreKnown(db, budget);
    if intent.id in db.jobs {
      var intents := db.intents[intent.id := IntentRow(intent, None, now)];
      IntentsKeep(db, budget, intents);
      var stored := db.(intents := intents);
      var current := db.jobs[intent.id].state;
      if current == Published || current == CleanupFailed {
        SetStateKeeps(stored, budget, intent.id, current, CleanupPending, NO_FIELDS);
        if Confirmed(db) { SetStateConfirms(stored, intent.id, current, CleanupPending, NO_FIELDS); }
      }
    }
  }

  lemma CompleteKeeps(db: Db, budget: int, id: Id, observed: string)
    requires Inv(db, budget)
    ensures var after := Committed(db, CompleteCleanup(db, id, observed));
            Inv(after, budget) && (Confirmed(db) ==> Confirmed(after))
  {
    hide Inv, Confirmed, SetState, IsLegal;
    IntentsAreKnown(db, budget);
    if id in db.jobs && CompletingEdge(db.jobs[id].state).Some? {
      var noted := Observe(db, id, Some(observed));
      IntentsKeep(db, budget, noted.intents);
      var next := CompletingEdge(db.jobs[id].state).value;
      SetStateKeeps(noted, budget, id, db.jobs[id].state, next, NO_FIELDS);
      if Confirmed(db) { SetStateConfirms(noted, id, db.jobs[id].state, next, NO_FIELDS); }
    }
  }

  lemma FailKeeps(db: Db, budget: int, id: Id, error: string)
    requires Inv(db, budget)
    ensures var after := Committed(db, FailCleanup(db, id, error));
            Inv(after, budget) && (Confirmed(db) ==> Confirmed(after))
  {
    hide Inv, Confirmed, SetState, IsLegal;
    IntentsAreKnown(db, budget);
    if id in db.jobs {
      var noted := Observe(db, id, None);
      IntentsKeep(db, budget, noted.intents);
      var current := db.jobs[id].state;
      var next := if current == CleanupPending then CleanupFailed else current;
      SetStateKeeps(noted, budget, id, current, next, WithError(error));
      if Confirmed(db) { SetStateConfirms(noted, id, current, next, WithError(error)); }
    }
  }

  /** Dropping a job's rows and its result together leaves nothing of it behind. */
  lemma ReinferPlaces(db: Db, id: Id, job: Job)
    requires ResultsPlaced(db) && id in db.jobs && job.result.None?
    ensures ResultsPlaced(Rewritten(db.(outbox := WithoutRows(db.outbox, id)), id, job))
  {
  }

  lemma ReinferShape(db: Db, id: Id, reason: string)
    requires id in db.jobs && Invalidatable(db.jobs[id].state)
    ensures RequeueForReinference(db, id, reason)
         == Ok(Rewritten(db.(outbox := WithoutRows(db.outbox, id)), id,
                         db.jobs[id].(state := Ready, result := None, sidecar := None, lastError := Some(reason))))
  {
    var bare := db.jobs[id := db.jobs[id].(result := None, sidecar := None)];
    assert bare[id := Moved(bare[id], Ready, WithError(reason))]
        == db.jobs[id := db.jobs[id].(state := Ready, result := None, sidecar := None, lastError := Some(reason))];
  }

  lemma ReinferKeeps(db: Db, budget: int, id: Id, reason: string)
    requires Inv(db, budget)
    ensures var after := Committed(db, RequeueForReinference(db, id, reason));
            Inv(after, budget) && (Confirmed(db) ==> Confirmed(after))
  {
    if id in db.jobs && Invalidatable(db.jobs[id].state) {
      var outbox := WithoutRows(db.outbox, id);
      var job := db.jobs[id].(state := Ready, result := None, sidecar := None, lastError := Some(reason));
      var dropped := db.(outbox := outbox);
      ReinferShape(db, id, reason);
      RewriteReserves(dropped, budget, id, job);
      ReinferPlaces(db, id, job);
      if Confirmed(db) {
        EditKeeps(db, budget, outbox);
        RewriteConfirms(dropped, id, job);
      }
    }
  }

  /** Some jobs sent back to Ready from states that hold no result. */
  ghost predicate Reset(before: map<Id, Job>, after: map<Id, Job>) {
    && after.Keys == before.Keys
    && forall id :: id in after && after[id] != before[id] ==>
         after[id] == before[id].(state := Ready) && !HasResult(before[id].state) && !Terminal(before[id].state)
  }

  lemma ResetReserves(db: Db, budget: int, jobs: map<Id, Job>)
    requires Reserved(db, budget) && Reset(db.jobs, jobs)
    ensures Reserved(db.(jobs := jobs), budget)
  {
    forall id ensures id in db.reservations <==> id in jobs && !Terminal(jobs[id].state) {
      assert id in db.reservations <==> id in db.jobs && !Terminal(db.jobs[id].state);
    }
  }

  lemma ResetPlaces(db: Db, jobs: map<Id, Job>)
    requires ResultsPlaced(db) && Reset(db.jobs, jobs)
    ensures ResultsPlaced(db.(jobs := jobs))
  {
  }

  lemma ResetConfirms(db: Db, jobs: map<Id, Job>)
    requires Confirmed(db) && Reset(db.jobs, jobs)
    ensures Confirmed(db.(jobs := jobs))
  {
    forall id | id in jobs && PastPublication(jobs[id].state) ensures GatingDone(db.outbox, id) {
      assert jobs[id] == db.jobs[id];
    }
  }

  lemma ResetKeeps(db: Db, budget: int, jobs: map<Id, Job>)
    requires Inv(db, budget) && Reset(db.jobs, jobs)
    ensures Inv(db.(jobs := jobs), budget)
    ensures Confirmed(db) ==> Confirmed(db.(jobs := jobs))
  {
    hide Reserved, ResultsPlaced, Confirmed;
    ResetReserves(db, budget, jobs);
    ResetPlaces(db, jobs);
    if Confirmed(db) { ResetConfirms(db, jobs); }
  }

  lemma OutboxOpKeeps(db: Db, budget: int, op: Op)
    requires Inv(db, budget)
    requires op.PublishedOp? || op.AttemptOp? || op.RetryOp?
    ensures var after := Perform(db, budget, op);
            Inv(after, budget) && (Confirmed(db) ==> Confirmed(after))
  {
    match op
    case PublishedOp(row) => PublishedKeeps(db, budget, row);
    case AttemptOp(row, error) => AttemptKeeps(db, budget, row, error);
    case RetryOp(id) => RetryKeeps(db, budget, id);
  }

  lemma CleanupOpKeeps(db: Db, budget: int, op: Op)
    requires Inv(db, budget)
    requires op.IntentOp? || op.CompleteOp? || op.FailOp?
    ensures var after := Perform(db, budget, op);
            Inv(after, budget) && (Confirmed(db) ==> Confirmed(after))
  {
    match op
    case IntentOp(intent, now) => IntentKeeps(db, budget, intent, now);
    case CompleteOp(id, observed) => CompleteKeeps(db, budget, id, observed);
    case FailOp(id, error) => FailKeeps(db, budget, id, error);
  }

  lemma UnblockResets(db: Db, route: Option<string>)
    ensures var after := RequeueBlocked(db, route); after == db.(jobs := after.jobs) && Reset(db.jobs, after.jobs)
  {
  }

  lemma RecoverResets(db: Db, now: int)
    ensures var after := Recover(db, now); after == db.(jobs := after.jobs) && Reset(db.jobs, after.jobs)
  {
  }

  lemma ResetOpKeeps(db: Db, budget: int, op: Op)
    requires Inv(db, budget) && (op.UnblockOp? || op.RecoverOp?)
    ensures var after := Perform(db, budget, op);
            Inv(after, budget) && (Confirmed(db) ==> Confirmed(after))
  {
    hide Inv, Confirmed, Reset, RequeueBlocked, Recover;
    match op
    case UnblockOp(route) =>
      UnblockResets(db, route);
      ResetKeeps(db, budget, RequeueBlocked(db, route).jobs);
    case RecoverOp(now) =>
      RecoverResets(db, now);
      ResetKeeps(db, budget, Recover(db, now).jobs);
  }

  lemma OpKeeps(db: Db, budget: int, op: Op)
    requires Inv(db, budget)
    ensures Inv(Perform(db, budget, op), budget)
  {
    hide Inv, Confirmed, Admit, SetState, CommitResult, RequeueForReinference, RequeueBlocked, Recover;
    match op
    case AdmitOp(job, reserve, now) => AdmitKeeps(db, budget, job, reserve, now);
    case TransitionOp(id, expected, next, f) => SetStateKeeps(db, budget, id, expected, next, f);
    case CommitOp(id, result, sidecar, rows) => CommitKeeps(db, budget, id, result, sidecar, rows);
    case ReinferOp(id, reason) => ReinferKeeps(db, budget, id, reason);
    case UnblockOp(_) => ResetOpKeeps(db, budget, op);
    case RecoverOp(_) => ResetOpKeeps(db, budget, op);
    case PublishedOp(_) => OutboxOpKeeps(db, budget, op);
    case AttemptOp(_, _) => OutboxOpKeeps(db, budget, op);
    case RetryOp(_) => OutboxOpKeeps(db, budget, op);
    case _ => CleanupOpKeeps(db, budget, op);
  }

  lemma OpConfirms(db: Db, budget: int, op: Op)
    requires Inv(db, budget) && Confirmed(db) && !BareEdge(op)
    ensures Confirmed(Perform(db, budget, op))
  {
    hide Inv, Confirmed, Admit, SetState, CommitResult, RequeueForReinference, RequeueBlocked, Recover;
    match op
    case AdmitOp(job, reserve, now) => AdmitConfirms(db, budget, job, reserve, now);
    case TransitionOp(id, expected, next, f) => SetStateConfirms(db, id, expected, next, f);
    case CommitOp(id, result, sidecar, rows) => CommitConfirms(db, id, result, sidecar, rows);
    case ReinferOp(id, reason) => ReinferKeeps(db, budget, id, reason);
    case UnblockOp(_) => ResetOpKeeps(db, budget, op);
    case RecoverOp(_) => ResetOpKeeps(db, budget, op);
    case PublishedOp(_) => OutboxOpKeeps(db, budget, op);
    case AttemptOp(_, _) => OutboxOpKeeps(db, budget, op);
    case RetryOp(_) => OutboxOpKeeps(db, budget, op);
    case _ => CleanupOpKeeps(db, budget, op);
  }

  // -- every run ---------------------------------------------------------------------------------

  /** Whatever operations run, in whatever order, the budget and placement rules hold. */
  lemma {:induction false} RunKeeps(db: Db, budget: int, ops: seq<Op>)
    requires Inv(db, budget)
    ensures Inv(Run(db, budget, ops), budget)
    ensures Confirmed(db) && (forall k :: 0 <= k < |ops| ==> !BareEdge(ops[k])) ==> Confirmed(Run(db, budget, ops))
    decreases |ops|
  {
    if ops != [] {
      OpKeeps(db, budget, ops[0]);
      if Confirmed(db) && !BareEdge(ops[0]) { OpConfirms(db, budget, ops[0]); }
      RunKeeps(Perform(db, budget, ops[0]), budget, ops[1..]);
    }
  }

  lemma EmptyIsGood(budget: int)
    ensures Inv(EMPTY_DB, budget) && Confirmed(EMPTY_DB)
  {
  }

  /** A bare commit edge breaks that exactly when the ledger accepts it and it commits a result that is not
      there, or confirms a publication with gating rows unconfirmed. */
  lemma BareCommitLeavesNoResult(db: Db, budget: int, id: Id, expected: JobState, next: JobState, f: Fields)
    requires Inv(db, budget) && Confirmed(db) && BareEdge(TransitionOp(id, expected, next, f))
    ensures Confirmed(Perform(db, budget, TransitionOp(id, expected, next, f)))
      <==> !(id in db.jobs && db.jobs[id].state == expected && (next == ResultCommitted || !GatingDone(db.outbox, id)))
  {
    if id in db.jobs && db.jobs[id].state == expected {
      var job := Moved(db.jobs[id], next, f);
      var after := Perform(db, budget, TransitionOp(id, expected, next, f));
      assert after == Rewritten(db, id, job);
      assert after.jobs[id] == job;
      if next == Published && GatingDone(db.outbox, id) { RewriteConfirms(db, id, job); }
    }
  }

  // -- completing without an intent --------------------------------------------------------------

  /** Cleanup is entered by storing an intent, not by a bare transition. */
  predicate EntersByIntent(op: Op) {
    op.TransitionOp? ==> op.next != CleanupPending
  }

  predicate HasOpenIntent(db: Db, id: Id) {
    id in db.intents && db.intents[id].observed.None?
  }

  /** A job in cleanup has an open intent. */
  ghost predicate Intended(db: Db) {
    forall id :: id in db.jobs && db.jobs[id].state in {CleanupPending, CleanupFailed} ==> HasOpenIntent(db, id)
  }

  /** No job comes into cleanup, and intents stay as they are. */
  ghost predicate NoneEnters(before: Db, after: Db) {
    && before.intents == after.intents
    && forall id :: id in after.jobs && after.jobs[id].state in {CleanupPending, CleanupFailed} ==>
         id in before.jobs && before.jobs[id].state in {CleanupPending, CleanupFailed}
  }

  lemma EdgeEntersNone(db: Db, id: Id, expected: JobState, next: JobState, f: Fields)
    requires next != CleanupPending
    ensures NoneEnters(db, Committed(db, SetState(db, id, expected, next, f)))
  {
    hide IsLegal;
    if next == CleanupFailed && IsLegal(expected, next) { OnlyCleanupFails(expected); }
  }

  lemma OnlyCleanupFails(current: JobState)
    requires IsLegal(current, CleanupFailed)
    ensures current == CleanupPending
  {
  }

  lemma PublicationEntersNone(db: Db, budget: int, op: Op)
    requires op.PublishedOp? || op.AttemptOp? || op.RetryOp?
    ensures NoneEnters(db, Perform(db, budget, op))
  {
    hide IsLegal, Restarted;
  }

  lemma CommitEntersNone(db: Db, budget: int, op: Op)
    requires op.CommitOp? || op.ReinferOp?
    ensures NoneEnters(db, Perform(db, budget, op))
  {
    hide InsertRows, CommitResult, RequeueForReinference;
    match op
    case CommitOp(id, result, sidecar, rows) =>
      if id in db.jobs && db.jobs[id].state == Inferencing { CommitShape(db, id, result, sidecar, rows); } else { CommitRefused(db, id, result, sidecar, rows); }
    case ReinferOp(id, reason) =>
      if id in db.jobs && Invalidatable(db.jobs[id].state) { ReinferShape(db, id, reason); } else { ReinferRefused(db, id, reason); }
  }

  lemma CommitRefused(db: Db, id: Id, result: Bytes, sidecar: Option<Sidecar>, rows: seq<Message>)
    requires !(id in db.jobs && db.jobs[id].state == Inferencing)
    ensures CommitResult(db, id, result, sidecar, rows).Err?
  {
  }

  lemma ReinferRefused(db: Db, id: Id, reason: string)
    requires !(id in db.jobs && Invalidatable(db.jobs[id].state))
    ensures RequeueForReinference(db, id, reason).Err?
  {
  }

  lemma ResetEntersNone(db: Db, budget: int, op: Op)
    requires op.AdmitOp? || op.UnblockOp? || op.RecoverOp?
    ensures NoneEnters(db, Perform(db, budget, op))
  {
  }

  lemma IntentIsIntended(db: Db, intent: Intent, now: int)
    requires Intended(db)
    ensures Intended(Committed(db, RecordIntent(db, intent, now)))
  {
  }

  lemma CompleteIsIntended(db: Db, id: Id, observed: string)
    requires Intended(db)
    ensures Intended(Committed(db, CompleteCleanup(db, id, observed)))
  {
    hide IsLegal;
    if id in db.jobs && CompletingEdge(db.jobs[id].state).Some? { CompletesLegally(db.jobs[id].state); }
  }

  lemma CompletesLegally(current: JobState)
    requires CompletingEdge(current).Some?
    ensures IsLegal(current, CompletingEdge(current).value) && CompletingEdge(current).value !in {CleanupPending, CleanupFailed}
  {
  }

  lemma FailIsIntended(db: Db, id: Id, error: string)
    requires Intended(db)
    ensures Intended(Committed(db, FailCleanup(db, id, error)))
  {
    hide IsLegal;
  }

  lemma CleanupIsIntended(db: Db, budget: int, op: Op)
    requires Intended(db) && (op.IntentOp? || op.CompleteOp? || op.FailOp?)
    ensures Intended(Perform(db, budget, op))
  {
    hide Intended, RecordIntent, CompleteCleanup, FailCleanup;
    match op
    case IntentOp(intent, now) => IntentIsIntended(db, intent, now);
    case CompleteOp(id, observed) => CompleteIsIntended(db, id, observed);
    case FailOp(id, error) => FailIsIntended(db, id, error);
  }

  lemma OpIsIntended(db: Db, budget: int, op: Op)
    requires Intended(db) && EntersByIntent(op)
    ensures Intended(Perform(db, budget, op))
  {
    hide Perform, SetState;
    match op
    case TransitionOp(id, expected, next, f) => TransitionEntersNone(db, budget, op);
    case AdmitOp(_, _, _) => ResetEntersNone(db, budget, op);
    case UnblockOp(_) => ResetEntersNone(db, budget, op);
    case RecoverOp(_) => ResetEntersNone(db, budget, op);
    case CommitOp(_, _, _, _) => CommitEntersNone(db, budget, op);
    case ReinferOp(_, _) => CommitEntersNone(db, budget, op);
    case IntentOp(_, _) => CleanupIsIntended(db, budget, op);
    case CompleteOp(_, _) => CleanupIsIntended(db, budget, op);
    case FailOp(_, _) => CleanupIsIntended(db, budget, op);
    case _ => PublicationEntersNone(db, budget, op);
  }

  lemma TransitionEntersNone(db: Db, budget: int, op: Op)
    requires op.TransitionOp? && op.next != CleanupPending
    ensures NoneEnters(db, Perform(db, budget, op))
  {
    EdgeEntersNone(db, op.id, op.expected, op.next, op.fields);
  }

  lemma {:induction false} RunIsIntended(db: Db, budget: int, ops: seq<Op>)
    requires Intended(db) && forall k :: 0 <= k < |ops| ==> EntersByIntent(ops[k])
    ensures Intended(Run(db, budget, ops))
    decreases |ops|
  {
    if ops != [] {
      OpIsIntended(db, budget, ops[0]);
      RunIsIntended(Perform(db, budget, ops[0]), budget, ops[1..]);
    }
  }

  /** Completing a job that has no open intent is documented as refused. After any run that enters cleanup by
      storing intents, the code accepts it exactly for a job whose input was invalid or whose processing
      was exhausted. */
  lemma CompletesWithoutIntent(budget: int, ops: seq<Op>, id: Id, observed: string)
    requires forall k :: 0 <= k < |ops| ==> EntersByIntent(ops[k])
    ensures var db := Run(EMPTY_DB, budget, ops);
            !HasOpenIntent(db, id) ==>
              (CompleteCleanup(db, id, observed).Ok? <==> id in db.jobs && db.jobs[id].state in {InputInvalid, ProcessingExhausted})
  {
    RunIsIntended(EMPTY_DB, budget, ops);
  }

  /** Such a job is admitted and found invalid, and completed with nothing stored of what was to happen. */
  lemma InvalidInputNeedsNoIntent(budget: int, job: Job, now: int)
    requires job.state == Discovered && budget >= 0
    ensures var ops := [AdmitOp(job, 0, now), TransitionOp(job.id, Discovered, InputInvalid, NO_FIELDS)];
            var db := Run(EMPTY_DB, budget, ops);
      && (forall k :: 0 <= k < |ops| ==> EntersByIntent(ops[k]))
      && !HasOpenIntent(db, job.id) && CompleteCleanup(db, job.id, "").Ok?
  {
    var ops := [AdmitOp(job, 0, now), TransitionOp(job.id, Discovered, InputInvalid, NO_FIELDS)];
    var admitted := Perform(EMPTY_DB, budget, ops[0]);
    assert Total(EMPTY_DB.reservations) == 0;
    assert job.id in admitted.jobs && admitted.jobs[job.id].state == Discovered;
    RunNext(EMPTY_DB, budget, ops);
    RunNext(admitted, budget, ops[1..]);
    RunNone(Perform(admitted, budget, ops[1]), budget, ops[1..][1..]);
  }

  ghost predicate Undisturbed(before: Db, after: Db, id: Id)
    requires id in before.jobs
  {
    id in after.jobs && after.jobs[id].state == before.jobs[id].state && after.jobs[id].result == before.jobs[id].result
  }

  lemma SetStateSparesTerminal(db: Db, target: Id, expected: JobState, next: JobState, f: Fields, id: Id)
    requires id in db.jobs && Terminal(db.jobs[id].state)
    ensures Undisturbed(db, Committed(db, SetState(db, target, expected, next, f)), id)
  {
  }

  lemma CleanupSparesTerminal(db: Db, budget: int, op: Op, id: Id)
    requires id in db.jobs && Terminal(db.jobs[id].state)
    requires op.IntentOp? || op.CompleteOp? || op.FailOp?
    ensures Undisturbed(db, Perform(db, budget, op), id)
  {
    match op
    case IntentOp(intent, now) =>
      if intent.id in db.jobs {
        SetStateSparesTerminal(db.(intents := db.intents[intent.id := IntentRow(intent, None, now)]), intent.id,
                               db.jobs[intent.id].state, CleanupPending, NO_FIELDS, id);
      }
    case CompleteOp(target, observed) =>
      if target in db.jobs && CompletingEdge(db.jobs[target].state).Some? {
        SetStateSparesTerminal(Observe(db, target, Some(observed)), target, db.jobs[target].state,
                               CompletingEdge(db.jobs[target].state).value, NO_FIELDS, id);
      }
    case FailOp(target, error) =>
  }

  lemma OpKeepsTerminal(db: Db, budget: int, op: Op, id: Id)
    requires id in db.jobs && Terminal(db.jobs[id].state)
    ensures Undisturbed(db, Perform(db, budget, op), id)
  {
    hide Undisturbed;
    match op
    case TransitionOp(target, expected, next, f) => SetStateSparesTerminal(db, target, expected, next, f, id);
    case IntentOp(_, _) => CleanupSparesTerminal(db, budget, op, id);
    case CompleteOp(_, _) => CleanupSparesTerminal(db, budget, op, id);
    case FailOp(_, _) => CleanupSparesTerminal(db, budget, op, id);
    case CommitOp(_, _, _, _) => CommitSparesTerminal(db, budget, op, id);
    case ReinferOp(_, _) => CommitSparesTerminal(db, budget, op, id);
    case _ => OthersSpareTerminal(db, budget, op, id);
  }

  lemma CommitSparesTerminal(db: Db, budget: int, op: Op, id: Id)
    requires id in db.jobs && Terminal(db.jobs[id].state) && (op.CommitOp? || op.ReinferOp?)
    ensures Undisturbed(db, Perform(db, budget, op), id)
  {
    match op
    case CommitOp(target, result, sidecar, rows) =>
      if target in db.jobs && db.jobs[target].state == Inferencing { CommitShape(db, target, result, sidecar, rows); }
    case ReinferOp(target, reason) =>
      if target in db.jobs && Invalidatable(db.jobs[target].state) { ReinferShape(db, target, reason); }
  }

  lemma OthersSpareTerminal(db: Db, budget: int, op: Op, id: Id)
    requires id in db.jobs && Terminal(db.jobs[id].state)
    requires op.AdmitOp? || op.PublishedOp? || op.AttemptOp? || op.RetryOp? || op.UnblockOp? || op.RecoverOp?
    ensures Undisturbed(db, Perform(db, budget, op), id)
  {
    if op.PublishedOp? || op.RetryOp? { RowsSpareTerminal(db, budget, op, id); }
  }

  lemma RowsSpareTerminal(db: Db, budget: int, op: Op, id: Id)
    requires id in db.jobs && Terminal(db.jobs[id].state) && (op.PublishedOp? || op.RetryOp?)
    ensures Undisturbed(db, Perform(db, budget, op), id)
  {
    hide IsLegal, Restarted;
  }

  /** A terminal job has no way out, whatever runs after it. */
  lemma {:induction false} TerminalIsFinal(db: Db, budget: int, ops: seq<Op>, id: Id)
    requires id in db.jobs && Terminal(db.jobs[id].state)
    ensures var after := Run(db, budget, ops);
            id in after.jobs && after.jobs[id].state == db.jobs[id].state && after.jobs[id].result == db.jobs[id].result
    decreases |ops|
  {
    if ops != [] {
      OpKeepsTerminal(db, budget, ops[0], id);
      TerminalIsFinal(Perform(db, budget, ops[0]), budget, ops[1..], id);
    }
  }

  // -- recovery ----------------------------------------------------------------------------------

  /** After recovery no job is mid-flight or overdue; a job whose timer is not due, or that was neither, stays
      where it is; everything but states is untouched; every move is a declared recovery edge; and a second
      pass at the same clock moves nothing. */
  lemma RecoverySound(db: Db, now: int)
    ensures var after := Recover(db, now);
      && after.jobs.Keys == db.jobs.Keys
      && after == db.(jobs := after.jobs)
      && (forall id :: id in after.jobs ==>
            && after.jobs[id] == db.jobs[id].(state := after.jobs[id].state)
            && (after.jobs[id].state != db.jobs[id].state ==> IsRecoveryEdge(db.jobs[id].state, after.jobs[id].state))
            && after.jobs[id].state !in {Claimed, WaitingModel, Inferencing}
            && (db.jobs[id].state !in {Claimed, WaitingModel, Inferencing, RetryWait} ==> after.jobs[id] == db.jobs[id])
            && (db.jobs[id].state == RetryWait && db.jobs[id].nextAttempt.Some? && now < db.jobs[id].nextAttempt.value ==> after.jobs[id] == db.jobs[id])
            && (after.jobs[id].state == RetryWait ==> after.jobs[id].nextAttempt.Some? && after.jobs[id].nextAttempt.value > now))
      && Recover(after, now) == after
  {
    var after := Recover(db, now);
    assert Recover(after, now).jobs == after.jobs;
  }

  /** The jobs whose state a restart changes. */
  ghost function RestartMoves(db: Db, now: int): set<Id> {
    set id | id in db.jobs && Recover(db, now).jobs[id] != db.jobs[id]
  }

  lemma MovesAreRestarts(db: Db, now: int)
    ensures RestartMoves(db, now) == set id | id in db.jobs && Restarts(db.jobs[id], now)
  {
    forall id | id in db.jobs ensures Recover(db, now).jobs[id] != db.jobs[id] <==> Restarts(db.jobs[id], now) {
      assert Recover(db, now).jobs[id] == if Restarts(db.jobs[id], now) then db.jobs[id].(state := Ready) else db.jobs[id];
    }
  }

  lemma MovesByEdge(db: Db, now: int)
    ensures RestartMoves(db, now)
         == Restarting(db.jobs, now, (Inferencing, Ready)) + Restarting(db.jobs, now, (Claimed, Ready))
          + (Restarting(db.jobs, now, (WaitingModel, Ready)) + Restarting(db.jobs, now, (RetryWait, Ready)))
  {
    MovesAreRestarts(db, now);
  }

  lemma EdgesAreDisjoint(jobs: map<Id, Job>, now: int)
    ensures Restarting(jobs, now, (Inferencing, Ready)) !! Restarting(jobs, now, (Claimed, Ready))
            !! Restarting(jobs, now, (WaitingModel, Ready)) !! Restarting(jobs, now, (RetryWait, Ready))
  {
  }

  /** The per-edge counts a recovery reports add up to the jobs whose state it changed. */
  lemma CountsCoverMoves(db: Db, now: int)
    ensures |RestartMoves(db, now)|
         == |Restarting(db.jobs, now, (Inferencing, Ready))| + |Restarting(db.jobs, now, (Claimed, Ready))|
          + |Restarting(db.jobs, now, (WaitingModel, Ready))| + |Restarting(db.jobs, now, (RetryWait, Ready))|
  {
    hide Restarting, RestartMoves;
    MovesByEdge(db, now);
    EdgesAreDisjoint(db.jobs, now);
    DisjointCount(Restarting(db.jobs, now, (Inferencing, Ready)), Restarting(db.jobs, now, (Claimed, Ready)));
    DisjointCount(Restarting(db.jobs, now, (WaitingModel, Ready)), Restarting(db.jobs, now, (RetryWait, Ready)));
    DisjointCount(Restarting(db.jobs, now, (Inferencing, Ready)) + Restarting(db.jobs, now, (Claimed, Ready)),
                  Restarting(db.jobs, now, (WaitingModel, Ready)) + Restarting(db.jobs, now, (RetryWait, Ready)));
  }

  lemma DisjointCount(a: set<Id>, b: set<Id>)
    requires a !! b
    ensures |a + b| == |a| + |b|
  {
  }
}
