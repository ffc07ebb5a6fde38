// Everyone else who uses the ledger while the scheduler runs: admission, the app's commits, the
// publisher, cleanup and operator commands. None of them moves a job a live entry holds, and none
// touches an attempt count, so all of them are within what the scheduler allows for.

module Bystanders {
  import opened Wrappers
  import opened Lifecycle
  import opened LedgerSpec
  import opened LedgerFacts
  import opened LedgerRuns
  import opened Queues

  /** What keeps an operation off a job that an entry holds: commits and cleanup failures are for jobs
      whose answer was delivered, and admitted jobs have attempts left. Recovery runs before the
      scheduler starts. */
  ghost predicate Considerate(p: Places, db: Db, op: Op, max: int) {
    match op
    case AdmitOp(job, _, _) => job.attempts < max
    case TransitionOp(id, _, _, f) => f.attempts.None? && !Guarded(p, db.jobs, id)
    case CommitOp(id, _, _, _) => !Guarded(p, db.jobs, id)
    case FailOp(id, _) => !Guarded(p, db.jobs, id)
    case RecoverOp(_) => false
    case _ => true
  }

  predicate OutOfAttempts(s: JobState) {
    s == ProcessingExhausted || s == RetainedFailed
  }

  /** Rewriting one row nobody holds, without touching its attempts. */
  lemma RowMay(p: Places, jobs: map<Id, Job>, id: Id, job: Job, max: int)
    requires Keyed(jobs) && id in jobs && !Guarded(p, jobs, id)
    requires job.id == id && job.attempts == jobs[id].attempts && job.digest == jobs[id].digest
    requires OutOfAttempts(jobs[id].state) ==> OutOfAttempts(job.state)
    ensures OthersMay(p, jobs, jobs[id := job], max)
  {
  }

  lemma NothingMay(p: Places, jobs: map<Id, Job>, max: int)
    requires Keyed(jobs)
    ensures OthersMay(p, jobs, jobs, max)
  {
  }

  lemma AdmitMay(p: Places, db: Db, budget: int, job: Job, reserve: int, now: int, max: int)
    requires Keyed(db.jobs) && job.attempts < max
    ensures OthersMay(p, db.jobs, Perform(db, budget, AdmitOp(job, reserve, now)).jobs, max)
  {
    hide Held, Live;
  }

  lemma UnblockMay(p: Places, db: Db, budget: int, route: Option<string>, max: int)
    requires Keyed(db.jobs)
    ensures OthersMay(p, db.jobs, Perform(db, budget, UnblockOp(route)).jobs, max)
  {
    forall id | id in db.jobs && Guarded(p, db.jobs, id) ensures db.jobs[id].state != BlockedConfiguration {
    }
  }

  /** Admitting a job with attempts left, or unblocking jobs. */
  lemma ArrivalsMay(p: Places, db: Db, budget: int, op: Op, max: int)
    requires Keyed(db.jobs) && Considerate(p, db, op, max) && (op.AdmitOp? || op.UnblockOp?)
    ensures OthersMay(p, db.jobs, Perform(db, budget, op).jobs, max)
  {
    hide OthersMay, Perform;
    match op
    case AdmitOp(job, reserve, now) => AdmitMay(p, db, budget, job, reserve, now, max);
    case UnblockOp(route) => UnblockMay(p, db, budget, route, max);
  }

  lemma SetStateMay(p: Places, db: Db, id: Id, expected: JobState, next: JobState, f: Fields, max: int)
    requires Keyed(db.jobs) && f.attempts.None?
    requires id in db.jobs && db.jobs[id].state == expected ==> !Guarded(p, db.jobs, id)
    ensures OthersMay(p, db.jobs, Committed(db, SetState(db, id, expected, next, f)).jobs, max)
  {
    if SetState(db, id, expected, next, f).Ok? {
      RowMay(p, db.jobs, id, Moved(db.jobs[id], next, f), max);
    }
  }

  lemma OutboxMay(p: Places, db: Db, budget: int, op: Op, max: int)
    requires Keyed(db.jobs) && (op.PublishedOp? || op.AttemptOp? || op.RetryOp?)
    ensures OthersMay(p, db.jobs, Perform(db, budget, op).jobs, max)
  {
    match op
    case PublishedOp(row) =>
      if row in db.outbox && db.outbox[row].job in db.jobs {
        var marked := db.(outbox := db.outbox[row := db.outbox[row].(published := true, lastError := None)]);
        SetStateMay(p, marked, db.outbox[row].job, PublishPending, Published, NO_FIELDS, max);
      }
    case AttemptOp(row, error) =>
    case RetryOp(id) => SetStateMay(p, db, id, PublishExhausted, PublishPending, NO_FIELDS, max);
  }

  lemma CleanupMay(p: Places, db: Db, budget: int, op: Op, max: int)
    requires Keyed(db.jobs) && Considerate(p, db, op, max) && (op.IntentOp? || op.CompleteOp? || op.FailOp?)
    ensures OthersMay(p, db.jobs, Perform(db, budget, op).jobs, max)
  {
    hide OthersMay;
    NothingMay(p, db.jobs, max);
    match op
    case IntentOp(intent, now) =>
      if intent.id in db.jobs {
        var stored := db.(intents := db.intents[intent.id := IntentRow(intent, None, now)]);
        var current := db.jobs[intent.id].state;
        if current == Published || current == CleanupFailed {
          SetStateMay(p, stored, intent.id, current, CleanupPending, NO_FIELDS, max);
        }
      }
    case CompleteOp(id, observed) =>
      if id in db.jobs && CompletingEdge(db.jobs[id].state).Some? {
        SetStateMay(p, Observe(db, id, Some(observed)), id, db.jobs[id].state, CompletingEdge(db.jobs[id].state).value, NO_FIELDS, max);
      }
    case FailOp(id, error) =>
      if id in db.jobs {
        var current := db.jobs[id].state;
        SetStateMay(p, Observe(db, id, None), id, current, if current == CleanupPending then CleanupFailed else current, WithError(error), max);
      }
  }

  /** Every considerate operation is one the scheduler's invariant survives. */
  lemma BystandersMay(p: Places, db: Db, budget: int, op: Op, max: int)
    requires Keyed(db.jobs) && Considerate(p, db, op, max)
    ensures OthersMay(p, db.jobs, Perform(db, budget, op).jobs, max)
  {
    hide OthersMay, InsertRows;
    NothingMay(p, db.jobs, max);
    match op
    case AdmitOp(_, _, _) => ArrivalsMay(p, db, budget, op, max);
    case TransitionOp(id, expected, next, f) => SetStateMay(p, db, id, expected, next, f, max);
    case CommitOp(id, result, sidecar, rows) =>
      if id in db.jobs && db.jobs[id].state == Inferencing {
        CommitShape(db, id, result, sidecar, rows);
        RowMay(p, db.jobs, id, Finished(db.jobs[id], result, sidecar, rows), max);
      }
    case ReinferOp(id, reason) =>
      if id in db.jobs && Invalidatable(db.jobs[id].state) {
        ReinferShape(db, id, reason);
        RowMay(p, db.jobs, id, db.jobs[id].(state := Ready, result := None, sidecar := None, lastError := Some(reason)), max);
      }
    case UnblockOp(_) => ArrivalsMay(p, db, budget, op, max);
    case RecoverOp(_) =>
    case IntentOp(_, _) => CleanupMay(p, db, budget, op, max);
    case CompleteOp(_, _) => CleanupMay(p, db, budget, op, max);
    case FailOp(_, _) => CleanupMay(p, db, budget, op, max);
    case _ => OutboxMay(p, db, budget, op, max);
  }

  /** In a clean run, or while the job is being inferred, a queued copy counts what the ledger counts. */
  lemma CountsAgree(p: Places, jobs: map<Id, Job>, clean: bool, max: int, hand: multiset<Ticket>, t: Ticket)
    requires Good(p, jobs, clean, max, hand) && Live(p, t) && Held(p.entries[t].job.state)
    requires clean || p.entries[t].job.state == Inferencing
    ensures jobs[p.entries[t].job.id].attempts == p.entries[t].job.attempts
  {
    RowOf(p, jobs, clean, max, hand, t);
  }

  /** One job's way through an empty scheduler whose first load fails: submitted, taken in, at the head of
      its lane, taken off it, and waiting on a timer. */
  datatype Failing = Failing(submitted: Places, taken: Places, queued: Places, popped: Places, timed: Places, jobs: map<Id, Job>)
  {
    ghost predicate Sound(before: map<Id, Job>, clean: bool, max: int) {
      && Good(NOWHERE, before, true, max, multiset{}) && Good(submitted, before, clean, max, multiset{})
      && Good(taken, before, clean, max, multiset{0}) && Good(queued, before, clean, max, multiset{})
      && Good(popped, before, clean, max, multiset{0}) && Good(timed, jobs, clean, max, multiset{})
    }
  }

  const NOWHERE := Places(map[], 0, [], [], [], multiset{}, multiset{}, multiset{})

  function FailedLoad(jobs: map<Id, Job>, entry: Queued, due: int, error: string): (run: Failing)
    requires entry.job.id in jobs
    ensures run.submitted.entries == map[0 := entry]
  {
    var submitted := Submitted(NOWHERE, entry);
    var taken := submitted.(inbox := []);
    var queued := Pushed(Opened(taken, entry.job.digest), 0, 0, false);
    var popped := Popped(queued, 0);
    var row := Moved(jobs[entry.job.id], RetryWait, Fields(Some(entry.job.attempts), Some(due), Some(error)));
    Failing(submitted, taken, queued, popped, Timed(Adopted(popped, 0, row), due, 0), jobs[entry.job.id := row])
  }

  lemma ArrivesAtHead(jobs: map<Id, Job>, entry: Queued, max: int, due: int, error: string)
    requires Keyed(jobs) && WithinAttempts(jobs, max) && entry.job.id in jobs && entry.job.digest == jobs[entry.job.id].digest
    requires entry.job.state == WaitingModel
    ensures var run := FailedLoad(jobs, entry, due, error);
            var clean := jobs[entry.job.id] == entry.job;
      && Good(NOWHERE, jobs, true, max, multiset{}) && Good(run.submitted, jobs, clean, max, multiset{})
      && Good(run.taken, jobs, clean, max, multiset{0}) && Good(run.queued, jobs, clean, max, multiset{})
      && Good(run.popped, jobs, clean, max, multiset{0})
  {
    hide Good, WithinAttempts, Moved, Adopted;
    var clean := jobs[entry.job.id] == entry.job;
    var run := FailedLoad(jobs, entry, due, error);
    NothingSubmitted(jobs, max);
    assert Unclaimed(NOWHERE, jobs, entry.job) <==> clean;
    SubmitGood(NOWHERE, jobs, true, max, entry);
    EmptyInboxGood(run.submitted, jobs, clean, max);
    assert run.submitted.inbox == [0];
    assert multiset([0]) == multiset{0} == multiset{0} + multiset{};
    OpenGood(run.taken, jobs, clean, max, entry.job.digest, multiset{0});
    PushGood(Opened(run.taken, entry.job.digest), jobs, clean, max, 0, 0, false, multiset{});
    PopGood(run.queued, jobs, clean, max, 0);
  }

  lemma FailsThere(p: Places, jobs: map<Id, Job>, clean: bool, max: int, due: int, error: string)
    requires Good(p, jobs, clean, max, multiset{0}) && 0 in p.entries && p.entries[0].job.state == WaitingModel
    requires p.entries[0].job.id in jobs && jobs[p.entries[0].job.id].state == WaitingModel
    ensures var own := p.entries[0].job;
            var row := Moved(jobs[own.id], RetryWait, Fields(Some(own.attempts), Some(due), Some(error)));
            Good(Timed(Adopted(p, 0, row), due, 0), jobs[own.id := row], clean, max, multiset{})
  {
    hide Good, Moved, Adopted;
    var own := p.entries[0].job;
    var f := Fields(Some(own.attempts), Some(due), Some(error));
    InHand(p, jobs, clean, max, multiset{0}, 0);
    HandMayAsk(p, jobs, clean, max, multiset{0}, 0, RetryWait, f);
    AskGood(p, jobs, clean, max, multiset{0}, 0, WaitingModel, RetryWait, f);
    assert multiset{0} == multiset{0} + multiset{};
    TimeGood(Adopted(p, 0, Moved(jobs[own.id], RetryWait, f)), jobs[own.id := Moved(jobs[own.id], RetryWait, f)], clean, max, due, 0, multiset{});
  }

  /** Every step of that run keeps the scheduler's invariant, and the ledger accepts the edge; yet a copy
      submitted as waiting for a model lowers the durable attempts exactly when it counts fewer. */
  lemma StaleCopyLowersAttempts(jobs: map<Id, Job>, entry: Queued, max: int, due: int, error: string)
    requires Keyed(jobs) && WithinAttempts(jobs, max) && entry.job.id in jobs && entry.job.digest == jobs[entry.job.id].digest
    requires entry.job.state == WaitingModel && jobs[entry.job.id].state == WaitingModel
    ensures FailedLoad(jobs, entry, due, error).Sound(jobs, jobs[entry.job.id] == entry.job, max)
    ensures var after := FailedLoad(jobs, entry, due, error).jobs[entry.job.id];
            after.state == RetryWait && (after.attempts < jobs[entry.job.id].attempts <==> entry.job.attempts < jobs[entry.job.id].attempts)
  {
    hide Good, WithinAttempts;
    ArrivesAtHead(jobs, entry, max, due, error);
    var run := FailedLoad(jobs, entry, due, error);
    FailsThere(run.popped, jobs, jobs[entry.job.id] == entry.job, max, due, error);
  }
}
