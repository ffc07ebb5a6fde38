// The durable tables and every ledger transaction as a function from one database value to the
// next. A transaction either commits whole or is refused and leaves the database as it was.

module LedgerSpec {
  import opened Wrappers
  import opened Lifecycle
  import opened Ordering
  import opened Sums

  type Id = string
  type Bytes = string

  datatype Sidecar = Sidecar(path: string, sha256: string)

  /** One row of `jobs`. */
  datatype Job = Job(
    id: Id, route: string, digest: string, state: JobState,
    attempts: int, nextAttempt: Option<int>, createdAt: int,
    result: Option<Bytes>, sidecar: Option<Sidecar>, lastError: Option<string>)

  /** A prepared message, before it has a row id. */
  datatype Message = Message(topic: string, payload: Bytes, gating: bool)

  /** One row of `outbox`. */
  datatype OutboxRow = OutboxRow(job: Id, message: Message, attempts: nat, published: bool, lastError: Option<string>)

  datatype Action = Archive | Delete | Retain | Quarantine

  datatype Intent = Intent(
    id: Id, action: Action, source: seq<string>, sha256: string, target: Option<seq<string>>,
    members: seq<seq<string>>)

  /** One row of `cleanup_intents`. */
  datatype IntentRow = IntentRow(intent: Intent, observed: Option<string>, createdAt: int)

  datatype Db = Db(
    jobs: map<Id, Job>, outbox: map<nat, OutboxRow>, nextRow: nat,
    intents: map<Id, IntentRow>, reservations: map<Id, nat>)

  const EMPTY_DB := Db(map[], map[], 0, map[], map[])

  /** Why a transaction was refused: LedgerConflict, IllegalTransition, or ValueError. */
  datatype Refusal = Conflict | Illegal | BadValue

  /** The column updates a transition may carry; None leaves a column alone. */
  datatype Fields = Fields(attempts: Option<int>, nextAttempt: Option<int>, lastError: Option<string>)

  const NO_FIELDS := Fields(None, None, None)

  function WithError(error: string): Fields {
    Fields(None, None, Some(error))
  }

  function Moved(job: Job, state: JobState, f: Fields): Job {
    job.(state := state,
         attempts := if f.attempts.Some? then f.attempts.value else job.attempts,
         nextAttempt := if f.nextAttempt.Some? then f.nextAttempt else job.nextAttempt,
         lastError := if f.lastError.Some? then f.lastError else job.lastError)
  }

  // -- jobs ------------------------------------------------------------------------------------

  /** The compare-and-set every forward edge goes through. */
  function SetState(db: Db, id: Id, expected: JobState, next: JobState, f: Fields): Result<Db, Refusal> {
    if id !in db.jobs || db.jobs[id].state != expected then Err(Conflict)
    else if expected != next && !IsLegal(expected, next) then Err(Illegal)
    else Ok(db.(jobs := db.jobs[id := Moved(db.jobs[id], next, f)],
                reservations := if Terminal(next) then db.reservations - {id} else db.reservations))
  }

  /** One backward step, checked against the other table. */
  function ForceState(db: Db, id: Id, next: JobState, f: Fields): Result<Db, Refusal>
    requires id in db.jobs
  {
    if !IsRecoveryEdge(db.jobs[id].state, next) then Err(Illegal)
    else Ok(db.(jobs := db.jobs[id := Moved(db.jobs[id], next, f)]))
  }

  ghost function Admit(db: Db, budget: int, job: Job, reserve: int, now: int): Result<(Db, bool), Refusal> {
    if !Initial(job.state) then Err(Illegal)
    else if reserve < 0 then Err(BadValue)
    else if job.id in db.jobs || Total(db.reservations) + reserve > budget then Ok((db, false))
    else
      var row := job.(createdAt := now, result := None, sidecar := None, lastError := None);
      Ok((db.(jobs := db.jobs[job.id := row], reservations := db.reservations[job.id := reserve]), true))
  }

  // -- result and outbox -----------------------------------------------------------------------

  /** The rows of one commit, inserted in publication order under fresh, never reused ids. */
  function InsertRows(db: Db, id: Id, rows: seq<Message>): Db
    decreases |rows|
  {
    if rows == [] then db
    else
      var row := OutboxRow(id, rows[0], 0, false, None);
      InsertRows(db.(outbox := db.outbox[db.nextRow := row], nextRow := db.nextRow + 1), id, rows[1..])
  }

  function WithResult(db: Db, id: Id, result: Bytes, sidecar: Option<Sidecar>): Db
    requires id in db.jobs
  {
    db.(jobs := db.jobs[id := db.jobs[id].(result := Some(result), sidecar := sidecar)])
  }

  /** The compare-and-sets a commit ends with: on to publication when there is something to publish. */
  function Advanced(db: Db, id: Id, rows: seq<Message>): Result<Db, Refusal> {
    var committed := SetState(db, id, Inferencing, ResultCommitted, NO_FIELDS);
    if committed.Err? || rows == [] then committed
    else SetState(committed.value, id, ResultCommitted, PublishPending, NO_FIELDS)
  }

  function CommitResult(db: Db, id: Id, result: Bytes, sidecar: Option<Sidecar>, rows: seq<Message>): Result<Db, Refusal> {
    if id !in db.jobs || db.jobs[id].state != Inferencing then Err(Conflict)
    else Advanced(InsertRows(WithResult(db, id, result, sidecar), id, rows), id, rows)
  }

  /** Whether a row may be offered to the publisher. */
  predicate Eligible(db: Db, row: nat) {
    && row in db.outbox && !db.outbox[row].published
    && db.outbox[row].job in db.jobs && db.jobs[db.outbox[row].job].state == PublishPending
  }

  /** The first `limit` eligible rows from id `start` on, in insertion order. */
  function PendingFrom(db: Db, start: nat, limit: nat): seq<nat>
    decreases db.nextRow - start
  {
    if start >= db.nextRow || limit == 0 then []
    else if Eligible(db, start) then [start] + PendingFrom(db, start + 1, limit - 1)
    else PendingFrom(db, start + 1, limit)
  }

  predicate GatingDone(outbox: map<nat, OutboxRow>, id: Id) {
    forall r :: r in outbox && outbox[r].job == id && outbox[r].message.gating ==> outbox[r].published
  }

  function MarkPublished(db: Db, row: nat): Result<Db, Refusal> {
    if row !in db.outbox || db.outbox[row].job !in db.jobs then Err(Conflict)
    else
      var id := db.outbox[row].job;
      var marked := db.(outbox := db.outbox[row := db.outbox[row].(published := true, lastError := None)]);
      if GatingDone(marked.outbox, id) && db.jobs[id].state == PublishPending
      then SetState(marked, id, PublishPending, Published, NO_FIELDS)
      else Ok(marked)
  }

  function MarkPublishAttempt(db: Db, row: nat, error: string): Result<Db, Refusal> {
    if row !in db.outbox || db.outbox[row].published then Err(Conflict)
    else
      var r := db.outbox[row];
      Ok(db.(outbox := db.outbox[row := r.(attempts := r.attempts + 1, lastError := Some(error))]))
  }

  function ExhaustPublish(db: Db, id: Id): Result<Db, Refusal> {
    SetState(db, id, PublishPending, PublishExhausted, NO_FIELDS)
  }

  function Restarted(outbox: map<nat, OutboxRow>, id: Id): map<nat, OutboxRow> {
    map r | r in outbox ::
      if outbox[r].job == id && !outbox[r].published then outbox[r].(attempts := 0, lastError := None) else outbox[r]
  }

  function RetryPublication(db: Db, id: Id): Result<Db, Refusal> {
    var moved := SetState(db, id, PublishExhausted, PublishPending, NO_FIELDS);
    if moved.Err? then moved else Ok(moved.value.(outbox := Restarted(db.outbox, id)))
  }

  // -- cleanup ---------------------------------------------------------------------------------

  function RecordIntent(db: Db, intent: Intent, now: int): Result<Db, Refusal> {
    if intent.id !in db.jobs then Err(Conflict)
    else
      var current := db.jobs[intent.id].state;
      var stored := db.(intents := db.intents[intent.id := IntentRow(intent, None, now)]);
      if current == Published || current == CleanupFailed then SetState(stored, intent.id, current, CleanupPending, NO_FIELDS)
      else if current == InputInvalid || current == ProcessingExhausted || current == CleanupPending then Ok(stored)
      else Err(Illegal)
  }

  function Observe(db: Db, id: Id, observed: Option<string>): Db {
    if id in db.intents then db.(intents := db.intents[id := db.intents[id].(observed := observed)]) else db
  }

  function CompleteCleanup(db: Db, id: Id, observed: string): Result<Db, Refusal> {
    if id !in db.jobs then Err(Conflict)
    else
      var edge := CompletingEdge(db.jobs[id].state);
      if edge.None? then Err(Illegal)
      else SetState(Observe(db, id, Some(observed)), id, db.jobs[id].state, edge.value, NO_FIELDS)
  }

  function FailCleanup(db: Db, id: Id, error: string): Result<Db, Refusal> {
    if id !in db.jobs then Err(Conflict)
    else
      var current := db.jobs[id].state;
      SetState(Observe(db, id, None), id, current, if current == CleanupPending then CleanupFailed else current, WithError(error))
  }

  // -- recovery --------------------------------------------------------------------------------

  function WithoutRows(outbox: map<nat, OutboxRow>, id: Id): map<nat, OutboxRow> {
    map r | r in outbox && outbox[r].job != id :: outbox[r]
  }

  function RequeueForReinference(db: Db, id: Id, reason: string): Result<Db, Refusal> {
    if id !in db.jobs then Err(Conflict)
    else if !Invalidatable(db.jobs[id].state) then Err(Illegal)
    else
      var dropped := db.(outbox := WithoutRows(db.outbox, id),
                         jobs := db.jobs[id := db.jobs[id].(result := None, sidecar := None)]);
      ForceState(dropped, id, Ready, WithError(reason))
  }

  /** Whether requeue_blocked moves a job. */
  predicate Unblocks(job: Job, route: Option<string>) {
    job.state == BlockedConfiguration && (route.None? || job.route == route.value)
  }

  function RequeueBlocked(db: Db, route: Option<string>): Db {
    db.(jobs := map id | id in db.jobs ::
          if Unblocks(db.jobs[id], route) then db.jobs[id].(state := Ready) else db.jobs[id])
  }

  /** Whether a restart moves a job: mid-flight, or waiting on a retry timer that has come due. */
  predicate Restarts(job: Job, now: int) {
    || job.state == Inferencing || job.state == Claimed || job.state == WaitingModel
    || (job.state == RetryWait && (job.nextAttempt.None? || job.nextAttempt.value <= now))
  }

  function Recover(db: Db, now: int): Db {
    db.(jobs := map id | id in db.jobs ::
          if Restarts(db.jobs[id], now) then db.jobs[id].(state := Ready) else db.jobs[id])
  }

  // -- queries ---------------------------------------------------------------------------------

  type Key = (int, Id)

  /** ORDER BY created_at_ms, inference_id. */
  predicate KeyLess(a: Key, b: Key) {
    a.0 < b.0 || (a.0 == b.0 && TextLess(a.1, b.1))
  }

  lemma KeysAreTotal()
    ensures StrictTotal(KeyLess)
  {
    TextIsTotal();
  }

  function KeyOf(job: Job): Key {
    (job.createdAt, job.id)
  }
}
