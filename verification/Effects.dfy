// What each ledger operation comes to, told by the columns it leaves behind, and whether publication
// can be left with nothing to do.

module LedgerEffects {
  import opened Wrappers
  import opened Lifecycle
  import opened Sums
  import opened LedgerSpec
  import opened LedgerFacts
  import opened LedgerRuns

  // -- admission, commit, recovery ---------------------------------------------------------------

  /** A job is admitted exactly when it is new, starts at the beginning, and its reservation fits. Then it
      holds that reservation and nothing of a result; otherwise nothing changes. */
  lemma AdmissionStores(db: Db, budget: int, job: Job, reserve: int, now: int)
    requires Inv(db, budget)
    ensures var after := Perform(db, budget, AdmitOp(job, reserve, now));
      if job.state in {Discovered, Ready} && reserve >= 0 && job.id !in db.jobs && Total(db.reservations) + reserve <= budget then
        && job.id in after.jobs
        && after.jobs[job.id] == Job(job.id, job.route, job.digest, job.state, job.attempts, job.nextAttempt, now, None, None, None)
        && after.jobs - {job.id} == db.jobs
        && job.id in after.reservations && after.reservations[job.id] == reserve && after.reservations - {job.id} == db.reservations
        && Total(after.reservations) == Total(db.reservations) + reserve
        && after == db.(jobs := after.jobs, reservations := after.reservations)
      else after == db
  {
    hide Total, ResultsPlaced;
    if job.id !in db.jobs && reserve >= 0 {
      TotalInsert(db.reservations, job.id, reserve);
      var after := Perform(db, budget, AdmitOp(job, reserve, now));
      if after != db {
        assert after.jobs - {job.id} == db.jobs && after.reservations - {job.id} == db.reservations;
      }
    }
  }

  lemma {:induction false} InsertedAt(db: Db, id: Id, rows: seq<Message>)
    requires forall r :: r in db.outbox ==> r < db.nextRow
    ensures var r := InsertRows(db, id, rows);
      && r.nextRow == db.nextRow + |rows|
      && (forall k :: k in r.outbox <==> k in db.outbox || db.nextRow <= k < r.nextRow)
      && (forall k :: k in db.outbox ==> r.outbox[k] == db.outbox[k])
      && (forall k :: db.nextRow <= k < r.nextRow ==> r.outbox[k] == OutboxRow(id, rows[k - db.nextRow], 0, false, None))
    decreases |rows|
  {
    if rows != [] {
      var row := OutboxRow(id, rows[0], 0, false, None);
      InsertedAt(db.(outbox := db.outbox[db.nextRow := row], nextRow := db.nextRow + 1), id, rows[1..]);
    }
  }

  /** A commit stores the result and adds its rows in order, unpublished and never tried; the job goes on to
      publication exactly when there is something to publish. Only an inferring job can commit. */
  lemma CommitPublishes(db: Db, budget: int, id: Id, result: Bytes, sidecar: Option<Sidecar>, rows: seq<Message>)
    requires Inv(db, budget)
    ensures var after := Perform(db, budget, CommitOp(id, result, sidecar, rows));
      if id in db.jobs && db.jobs[id].state == Inferencing then
        && after.jobs == db.jobs[id := db.jobs[id].(result := Some(result), sidecar := sidecar,
                                                    state := if |rows| > 0 then PublishPending else ResultCommitted)]
        && after.nextRow == db.nextRow + |rows|
        && (forall r :: r in after.outbox <==> r in db.outbox || db.nextRow <= r < after.nextRow)
        && (forall r :: r in db.outbox ==> after.outbox[r] == db.outbox[r])
        && (forall r :: db.nextRow <= r < after.nextRow ==> after.outbox[r] == OutboxRow(id, rows[r - db.nextRow], 0, false, None))
        && after.intents == db.intents && after.reservations == db.reservations
      else after == db
  {
    hide InsertRows, CommitResult;
    if id in db.jobs && db.jobs[id].state == Inferencing {
      CommitShape(db, id, result, sidecar, rows);
      InsertedAt(db, id, rows);
    } else {
      CommitRefused(db, id, result, sidecar, rows);
    }
  }

  /** Requeueing a committed result for another inference leaves nothing of it; nothing else is requeued so. */
  lemma ReinferenceForgets(db: Db, budget: int, id: Id, reason: string)
    ensures var after := Perform(db, budget, ReinferOp(id, reason));
      if id in db.jobs && db.jobs[id].state in {ResultCommitted, PublishPending} then
        && after.jobs == db.jobs[id := db.jobs[id].(state := Ready, result := None, sidecar := None, lastError := Some(reason))]
        && (forall r :: r in after.outbox <==> r in db.outbox && db.outbox[r].job != id)
        && (forall r :: r in after.outbox ==> after.outbox[r] == db.outbox[r])
        && after == db.(jobs := after.jobs, outbox := after.outbox)
      else after == db
  {
    if id in db.jobs && db.jobs[id].state in {ResultCommitted, PublishPending} {
      var after := Perform(db, budget, ReinferOp(id, reason));
      assert after.jobs == db.jobs[id := after.jobs[id]];
    }
  }

  /** A transition is granted exactly to a job in the expected state along a declared edge or none. It moves that
      job, writes the columns it carries, and lets go of the reservation of a job that is finished. */
  lemma TransitionMoves(db: Db, budget: int, id: Id, expected: JobState, next: JobState, f: Fields)
    ensures var after := Perform(db, budget, TransitionOp(id, expected, next, f));
      if id in db.jobs && db.jobs[id].state == expected && (next == expected || IsLegal(expected, next)) then
        && id in after.jobs && after.jobs[id].state == next
        && (f.attempts.Some? ==> after.jobs[id].attempts == f.attempts.value)
        && (f.nextAttempt.Some? ==> after.jobs[id].nextAttempt == f.nextAttempt)
        && (f.lastError.Some? ==> after.jobs[id].lastError == f.lastError)
        && after.jobs[id] == db.jobs[id].(state := next,
             attempts := if f.attempts.None? then db.jobs[id].attempts else after.jobs[id].attempts,
             nextAttempt := if f.nextAttempt.None? then db.jobs[id].nextAttempt else after.jobs[id].nextAttempt,
             lastError := if f.lastError.None? then db.jobs[id].lastError else after.jobs[id].lastError)
        && after == db.(jobs := db.jobs[id := after.jobs[id]],
                        reservations := if next in {Completed, Quarantined, RetainedFailed} then db.reservations - {id} else db.reservations)
      else after == db
  {
    hide IsLegal;
  }

  /** Exactly the blocked jobs of the route, or of every route, become ready; nothing else changes. */
  lemma UnblockingReadies(db: Db, budget: int, route: Option<string>)
    ensures var after := Perform(db, budget, UnblockOp(route));
      && after == db.(jobs := after.jobs) && after.jobs.Keys == db.jobs.Keys
      && forall id :: id in db.jobs ==>
           if db.jobs[id].state == BlockedConfiguration && (route == None || route == Some(db.jobs[id].route))
           then after.jobs[id] == db.jobs[id].(state := Ready) else after.jobs[id] == db.jobs[id]
  {
  }

  // -- publication -------------------------------------------------------------------------------

  /** Every other gating row of this row's job is published. */
  predicate OthersPublished(outbox: map<nat, OutboxRow>, row: nat)
    requires row in outbox
  {
    forall r :: r in outbox && r != row && outbox[r].job == outbox[row].job && outbox[r].message.gating ==> outbox[r].published
  }

  /** Between two databases one row was confirmed, and nothing else happened: its job is published now
      exactly when it was before, or was waiting for nothing but this row. */
  ghost predicate ConfirmedIn(before: Db, after: Db, row: nat) {
    row in before.outbox && before.outbox[row].job in before.jobs && before.outbox[row].job in after.jobs &&
    var id := before.outbox[row].job;
    var was, next := before.jobs[id].state, after.jobs[id].state;
    && (next == Published <==> was == Published || (was == PublishPending && OthersPublished(before.outbox, row)))
    && (next != Published ==> next == was)
    && after == before.(jobs := before.jobs[id := before.jobs[id].(state := next)],
                        outbox := before.outbox[row := before.outbox[row].(published := true, lastError := None)])
  }

  /** A confirmation of a row there is, of a job there is, does just that; any other changes nothing. */
  lemma ConfirmationPublishes(db: Db, budget: int, row: nat)
    ensures var after := Perform(db, budget, PublishedOp(row));
      if row in db.outbox && db.outbox[row].job in db.jobs then ConfirmedIn(db, after, row) else after == db
  {
    if row in db.outbox && db.outbox[row].job in db.jobs {
      var id, after := db.outbox[row].job, Perform(db, budget, PublishedOp(row));
      var marked := db.outbox[row := db.outbox[row].(published := true, lastError := None)];
      assert forall r :: r in marked && r != row ==> marked[r] == db.outbox[r];
      assert GatingDone(marked, id) <==> OthersPublished(db.outbox, row);
      assert db.jobs[id := db.jobs[id]] == db.jobs;
    }
  }

  /** A failure is counted on an unpublished row and nowhere else. */
  lemma FailureCounts(db: Db, budget: int, row: nat, error: string)
    ensures var after := Perform(db, budget, AttemptOp(row, error));
      after == if row in db.outbox && !db.outbox[row].published
               then db.(outbox := db.outbox[row := db.outbox[row].(attempts := db.outbox[row].attempts + 1, lastError := Some(error))])
               else db
  {
  }

  /** The row belongs to the job and is not confirmed. */
  predicate Waits(db: Db, row: nat, id: Id) {
    row in db.outbox && db.outbox[row].job == id && !db.outbox[row].published
  }

  /** A retry reopens an exhausted publication with a fresh budget for every row not yet confirmed. */
  lemma RetryReopens(db: Db, budget: int, id: Id)
    ensures var after := Perform(db, budget, RetryOp(id));
      if id in db.jobs && db.jobs[id].state == PublishExhausted then
        && after.jobs == db.jobs[id := db.jobs[id].(state := PublishPending)]
        && after.outbox.Keys == db.outbox.Keys
        && (forall r :: r in db.outbox && Waits(db, r, id) ==> after.outbox[r] == db.outbox[r].(attempts := 0, lastError := None))
        && (forall r :: r in db.outbox && !Waits(db, r, id) ==> after.outbox[r] == db.outbox[r])
        && after == db.(jobs := after.jobs, outbox := after.outbox)
      else after == db
  {
  }

  // -- whether publication can be stranded -------------------------------------------------------

  /** Every job being published has a row that can still be offered. */
  ghost predicate NoneStranded(db: Db) {
    forall id :: id in db.jobs && db.jobs[id].state == PublishPending ==> exists row :: Waits(db, row, id)
  }

  /** The job an operation sends into publication, by a retry or a bare transition. */
  function Reopens(db: Db, op: Op): Option<Id> {
    match op
    case RetryOp(id) => if id in db.jobs && db.jobs[id].state == PublishExhausted then Some(id) else None
    case TransitionOp(id, expected, PublishPending, _) =>
      if id in db.jobs && db.jobs[id].state == expected && expected in {ResultCommitted, PublishExhausted} then Some(id) else None
    case _ => None
  }

  /** It does so although the job has no row left to publish. */
  ghost predicate Strands(db: Db, op: Op) {
    Reopens(db, op).Some? && forall row :: !Waits(db, row, Reopens(db, op).value)
  }

  /** Rows still waiting keep waiting, and no job but one starts publication. */
  ghost predicate StartsOnly(before: Db, after: Db, started: Option<Id>) {
    && (forall id, row :: Waits(before, row, id) && id in after.jobs && after.jobs[id].state == PublishPending ==> Waits(after, row, id))
    && (forall id :: id in after.jobs && after.jobs[id].state == PublishPending ==>
          Some(id) == started || (id in before.jobs && before.jobs[id].state == PublishPending))
  }

  lemma NoneStarted(before: Db, after: Db)
    requires NoneStranded(before) && StartsOnly(before, after, None)
    ensures NoneStranded(after)
  {
    forall id | id in after.jobs && after.jobs[id].state == PublishPending ensures exists row :: Waits(after, row, id) {
      var row :| Waits(before, row, id);
      assert Waits(after, row, id);
    }
  }

  lemma OneStarted(before: Db, after: Db, id: Id)
    requires NoneStranded(before) && StartsOnly(before, after, Some(id))
    requires id in after.jobs && after.jobs[id].state == PublishPending
    requires forall row :: Waits(after, row, id) <==> Waits(before, row, id)
    ensures NoneStranded(after) <==> exists row :: Waits(before, row, id)
  {
    if row :| Waits(before, row, id) {
      forall other | other in after.jobs && after.jobs[other].state == PublishPending ensures exists r :: Waits(after, r, other) {
        if other == id { assert Waits(after, row, id); }
        else {
          var r :| Waits(before, r, other);
          assert Waits(after, r, other);
        }
      }
    }
  }

  lemma TransitionStrands(db: Db, budget: int, op: Op)
    requires NoneStranded(db) && op.TransitionOp?
    ensures NoneStranded(Perform(db, budget, op)) <==> !Strands(db, op)
  {
    hide NoneStranded, StartsOnly;
    var after := Perform(db, budget, op);
    TransitionStarts(db, op.id, op.expected, op.next, op.fields);
    match Reopens(db, op)
    case Some(id) => OneStarted(db, after, id);
    case None => NoneStarted(db, after);
  }

  lemma TransitionStarts(db: Db, id: Id, expected: JobState, next: JobState, f: Fields)
    ensures var op, after := TransitionOp(id, expected, next, f), Committed(db, SetState(db, id, expected, next, f));
      && StartsOnly(db, after, Reopens(db, op)) && after.outbox == db.outbox
      && (Reopens(db, op).Some? ==> id in after.jobs && after.jobs[id].state == PublishPending)
  {
    hide IsLegal, Terminal;
    PublicationIsEntered(expected);
  }

  lemma PublicationIsEntered(current: JobState)
    ensures IsLegal(current, PublishPending) <==> current in {ResultCommitted, PublishExhausted}
  {
  }

  lemma RetryStrands(db: Db, budget: int, op: Op)
    requires NoneStranded(db) && op.RetryOp?
    ensures NoneStranded(Perform(db, budget, op)) <==> !Strands(db, op)
  {
    var after := Perform(db, budget, op);
    RetryReopens(db, budget, op.id);
    if Reopens(db, op).Some? { OneStarted(db, after, op.id); }
  }

  lemma ConfirmationStrandsNone(db: Db, budget: int, row: nat)
    requires NoneStranded(db)
    ensures NoneStranded(Perform(db, budget, PublishedOp(row)))
  {
    hide Perform;
    ConfirmationPublishes(db, budget, row);
    var after := Perform(db, budget, PublishedOp(row));
    if row in db.outbox && db.outbox[row].job in db.jobs {
      forall id | id in after.jobs && after.jobs[id].state == PublishPending ensures exists r :: Waits(after, r, id) {
        if id == db.outbox[row].job {
          var r :| r in db.outbox && r != row && db.outbox[r].job == id && db.outbox[r].message.gating && !db.outbox[r].published;
          assert Waits(after, r, id);
        } else {
          var r :| Waits(db, r, id);
          assert Waits(after, r, id);
        }
      }
    }
  }

  lemma CommitStrandsNone(db: Db, budget: int, id: Id, result: Bytes, sidecar: Option<Sidecar>, rows: seq<Message>)
    requires Inv(db, budget) && NoneStranded(db)
    ensures NoneStranded(Perform(db, budget, CommitOp(id, result, sidecar, rows)))
  {
    hide Perform, Inv;
    CommitPublishes(db, budget, id, result, sidecar, rows);
    var after := Perform(db, budget, CommitOp(id, result, sidecar, rows));
    if id in db.jobs && db.jobs[id].state == Inferencing {
      forall other | other in after.jobs && after.jobs[other].state == PublishPending ensures exists r :: Waits(after, r, other) {
        if other == id { assert Waits(after, db.nextRow, id); }
        else {
          var r :| Waits(db, r, other);
          assert Waits(after, r, other);
        }
      }
    }
  }

  lemma ReinferenceStrandsNone(db: Db, budget: int, id: Id, reason: string)
    requires NoneStranded(db)
    ensures NoneStranded(Perform(db, budget, ReinferOp(id, reason)))
  {
    hide Perform;
    ReinferenceForgets(db, budget, id, reason);
    NoneStarted(db, Perform(db, budget, ReinferOp(id, reason)));
  }

  lemma AdmissionStrandsNone(db: Db, budget: int, op: Op)
    requires Inv(db, budget) && NoneStranded(db) && op.AdmitOp?
    ensures NoneStranded(Perform(db, budget, op))
  {
    hide Perform, Inv;
    AdmissionStores(db, budget, op.job, op.reserve, op.now);
    var after := Perform(db, budget, op);
    assert forall id :: id in after.jobs && id != op.job.id ==> id in after.jobs - {op.job.id} && (after.jobs - {op.job.id})[id] == after.jobs[id];
    NoneStarted(db, after);
  }

  /** Jobs keep their rows, and one of them may have moved, but not into publication. */
  ghost predicate MovedElsewhere(before: Db, after: Db, id: Id) {
    && after.outbox == before.outbox
    && (forall other :: other in after.jobs && other != id ==> other in before.jobs && after.jobs[other] == before.jobs[other])
    && (id in after.jobs && after.jobs[id].state == PublishPending ==> id in before.jobs && before.jobs[id].state == PublishPending)
  }

  lemma ElsewhereStrandsNone(before: Db, after: Db, id: Id)
    requires NoneStranded(before) && MovedElsewhere(before, after, id)
    ensures NoneStranded(after)
  {
    NoneStarted(before, after);
  }

  lemma IntentMovesElsewhere(db: Db, intent: Intent, now: int)
    ensures MovedElsewhere(db, Committed(db, RecordIntent(db, intent, now)), intent.id)
  {
  }

  lemma CompletionMovesElsewhere(db: Db, id: Id, observed: string)
    ensures MovedElsewhere(db, Committed(db, CompleteCleanup(db, id, observed)), id)
  {
  }

  lemma FailureMovesElsewhere(db: Db, id: Id, error: string)
    ensures MovedElsewhere(db, Committed(db, FailCleanup(db, id, error)), id)
  {
  }

  lemma CleanupStrandsNone(db: Db, budget: int, op: Op)
    requires NoneStranded(db) && (op.IntentOp? || op.CompleteOp? || op.FailOp?)
    ensures NoneStranded(Perform(db, budget, op))
  {
    hide NoneStranded, MovedElsewhere, RecordIntent, CompleteCleanup, FailCleanup;
    var after := Perform(db, budget, op);
    match op
    case IntentOp(intent, now) =>
      IntentMovesElsewhere(db, intent, now);
      ElsewhereStrandsNone(db, after, intent.id);
    case CompleteOp(id, observed) =>
      CompletionMovesElsewhere(db, id, observed);
      ElsewhereStrandsNone(db, after, id);
    case FailOp(id, error) =>
      FailureMovesElsewhere(db, id, error);
      ElsewhereStrandsNone(db, after, id);
  }

  lemma ResetStrandsNone(db: Db, budget: int, op: Op)
    requires NoneStranded(db) && (op.UnblockOp? || op.RecoverOp? || op.AttemptOp?)
    ensures NoneStranded(Perform(db, budget, op))
  {
    NoneStarted(db, Perform(db, budget, op));
  }

  /** Every job being published keeps a row to publish, until an operation reopens the publication of a job
      that has none. */
  lemma StrandsExactly(db: Db, budget: int, op: Op)
    requires Inv(db, budget) && NoneStranded(db)
    ensures NoneStranded(Perform(db, budget, op)) <==> !Strands(db, op)
  {
    hide Perform, Inv, NoneStranded;
    match op
    case AdmitOp(_, _, _) => AdmissionStrandsNone(db, budget, op);
    case TransitionOp(_, _, _, _) => TransitionStrands(db, budget, op);
    case CommitOp(id, result, sidecar, rows) => CommitStrandsNone(db, budget, id, result, sidecar, rows);
    case PublishedOp(row) => ConfirmationStrandsNone(db, budget, row);
    case AttemptOp(_, _) => ResetStrandsNone(db, budget, op);
    case RetryOp(_) => RetryStrands(db, budget, op);
    case IntentOp(_, _) => CleanupStrandsNone(db, budget, op);
    case CompleteOp(_, _) => CleanupStrandsNone(db, budget, op);
    case FailOp(_, _) => CleanupStrandsNone(db, budget, op);
    case ReinferOp(id, reason) => ReinferenceStrandsNone(db, budget, id, reason);
    case UnblockOp(_) => ResetStrandsNone(db, budget, op);
    case RecoverOp(_) => ResetStrandsNone(db, budget, op);
  }

  /** No operation of a run strands a job. */
  ghost predicate StrandsNever(db: Db, budget: int, ops: seq<Op>)
    decreases |ops|
  {
    ops == [] || (!Strands(db, ops[0]) && StrandsNever(Perform(db, budget, ops[0]), budget, ops[1..]))
  }

  lemma {:induction false} RunStrandsNone(db: Db, budget: int, ops: seq<Op>)
    requires Inv(db, budget) && NoneStranded(db) && StrandsNever(db, budget, ops)
    ensures NoneStranded(Run(db, budget, ops))
    decreases |ops|
  {
    hide Perform, Inv, NoneStranded, Strands;
    if ops != [] {
      StrandsExactly(db, budget, ops[0]);
      OpKeeps(db, budget, ops[0]);
      RunStrandsNone(Perform(db, budget, ops[0]), budget, ops[1..]);
    }
  }

  /** It happens: a publication is given up, its last row is confirmed late, and it is retried. The job is
      being published and no row of it is ever offered again. */
  lemma RetryOfNothing(db: Db, budget: int, id: Id, result: Bytes, message: Message)
    requires Inv(db, budget) && id in db.jobs && db.jobs[id].state == Inferencing
    ensures var after := Run(db, budget, [CommitOp(id, result, None, [message]), TransitionOp(id, PublishPending, PublishExhausted, NO_FIELDS),
                                          PublishedOp(db.nextRow), RetryOp(id)]);
      id in after.jobs && after.jobs[id].state == PublishPending && forall row :: Eligible(after, row) ==> after.outbox[row].job != id
  {
    hide Perform, Inv, NoneStranded;
    var ops := [CommitOp(id, result, None, [message]), TransitionOp(id, PublishPending, PublishExhausted, NO_FIELDS),
                PublishedOp(db.nextRow), RetryOp(id)];
    var one := Perform(db, budget, ops[0]);
    var two := Perform(one, budget, ops[1]);
    var three := Perform(two, budget, ops[2]);
    var four := Perform(three, budget, ops[3]);
    RunOfFour(db, budget, ops);
    NoRowsYet(db, budget, id);
    CommitPublishes(db, budget, id, result, None, [message]);
    GivesUp(one, budget, id);
    ConfirmationPublishes(two, budget, db.nextRow);
    RetryReopens(three, budget, id);
  }

  lemma NoRowsYet(db: Db, budget: int, id: Id)
    requires Inv(db, budget) && id in db.jobs && db.jobs[id].state == Inferencing
    ensures forall r :: r in db.outbox ==> db.outbox[r].job != id
  {
  }

  lemma GivesUp(db: Db, budget: int, id: Id)
    requires id in db.jobs && db.jobs[id].state == PublishPending
    ensures Perform(db, budget, TransitionOp(id, PublishPending, PublishExhausted, NO_FIELDS))
         == db.(jobs := db.jobs[id := db.jobs[id].(state := PublishExhausted)])
  {
  }

  lemma RunOfFour(db: Db, budget: int, ops: seq<Op>)
    requires |ops| == 4
    ensures Run(db, budget, ops)
         == Perform(Perform(Perform(Perform(db, budget, ops[0]), budget, ops[1]), budget, ops[2]), budget, ops[3])
  {
    hide Perform;
    var second, third, fourth := ops[1..], ops[2..], ops[3..];
    assert second[1..] == third && third[1..] == fourth && |fourth[1..]| == 0;
    RunNext(db, budget, ops);
    RunNext(Perform(db, budget, ops[0]), budget, second);
    RunNext(Perform(Perform(db, budget, ops[0]), budget, ops[1]), budget, third);
    RunNext(Perform(Perform(Perform(db, budget, ops[0]), budget, ops[1]), budget, ops[2]), budget, fourth);
  }
}
