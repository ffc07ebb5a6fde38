// Confirmation gates cleanup. The broker's log is ghost: it records every message any drain ever got
// the broker to accept. Rows are followed from their commit on, through any interleaving of ledger
// operations, drains and crashes.

module Gate {
  import opened Wrappers
  import opened Lifecycle
  import opened LedgerSpec
  import opened LedgerFacts
  import opened LedgerRuns

  /** A message the broker accepted, and the row it was published from. */
  datatype Entry = Entry(row: nat, message: Message)

  /** The database, the broker's log, every row ever committed, and the rows of each job's last commit. */
  datatype Trail = Trail(db: Db, log: seq<Entry>, committed: map<nat, Message>, rowsOf: map<Id, set<nat>>)

  predicate InLog(log: seq<Entry>, row: nat) {
    exists i :: 0 <= i < |log| && log[i].row == row
  }

  /** The outbox holds just what was committed, and only accepted rows count as published. */
  ghost predicate Truthful(t: Trail) {
    && (forall r :: r in t.db.outbox ==> r in t.committed && t.db.outbox[r].message == t.committed[r])
    && (forall r :: r in t.db.outbox && t.db.outbox[r].published ==> InLog(t.log, r))
    && (forall r :: r in t.committed ==> r < t.db.nextRow)
    && (forall i :: 0 <= i < |t.log| ==> t.log[i].row in t.committed && t.log[i].message == t.committed[t.log[i].row])
  }

  /** A job at or past a committed result still has exactly the rows of its last commit. */
  ghost predicate Complete(db: Db, rowsOf: map<Id, set<nat>>) {
    forall id :: id in db.jobs && HasResult(db.jobs[id].state) ==>
      id in rowsOf && forall r :: r in rowsOf[id] <==> r in db.outbox && db.outbox[r].job == id
  }

  ghost predicate Gated(t: Trail, budget: int) {
    Inv(t.db, budget) && Confirmed(t.db) && Truthful(t) && Complete(t.db, t.rowsOf)
  }

  // -- what it is for ----------------------------------------------------------------------------

  /** Everything past publication has every gating message of its commit, byte for byte, in the log. */
  lemma GatingIsInTheLog(t: Trail, budget: int, id: Id, r: nat)
    requires Gated(t, budget) && id in t.db.jobs && PastPublication(t.db.jobs[id].state)
    requires id in t.rowsOf && r in t.rowsOf[id] && r in t.committed && t.committed[r].gating
    ensures Entry(r, t.committed[r]) in t.log
  {
    assert GatingDone(t.db.outbox, id);
    assert InLog(t.log, r);
    var i :| 0 <= i < |t.log| && t.log[i].row == r;
    assert t.log[i] == Entry(r, t.committed[r]);
  }

  /** No cleanup intent of a published job is stored, and so no file of it moves, before the log holds
      every gating message of its commit. */
  lemma NoCleanupBeforeConfirmation(t: Trail, budget: int, intent: Intent, now: int)
    requires Gated(t, budget) && RecordIntent(t.db, intent, now).Ok?
    requires t.db.jobs[intent.id].state != InputInvalid && t.db.jobs[intent.id].state != ProcessingExhausted
    ensures intent.id in t.rowsOf
    ensures forall r :: r in t.rowsOf[intent.id] && r in t.committed && t.committed[r].gating ==> Entry(r, t.committed[r]) in t.log
  {
    forall r | r in t.rowsOf[intent.id] && r in t.committed && t.committed[r].gating ensures Entry(r, t.committed[r]) in t.log {
      GatingIsInTheLog(t, budget, intent.id, r);
    }
  }

  /** However often a row is published, the bytes are the same. */
  lemma SameBytes(t: Trail, budget: int, i: nat, j: nat)
    requires Gated(t, budget) && i < |t.log| && j < |t.log| && t.log[i].row == t.log[j].row
    ensures t.log[i].message == t.log[j].message
  {
  }

  // -- one operation -----------------------------------------------------------------------------

  /** The rows one commit inserts, by id. */
  function Numbered(next: nat, rows: seq<Message>): (m: map<nat, Message>)
    ensures forall r :: r in m <==> next <= r < next + |rows|
    ensures forall r :: r in m ==> m[r] == rows[r - next]
    decreases |rows|
  {
    if rows == [] then map[] else Numbered(next + 1, rows[1..])[next := rows[0]]
  }

  /** The trail after a ledger operation. */
  ghost function Follow(t: Trail, budget: int, op: Op): Trail {
    var after := Perform(t.db, budget, op);
    if op.CommitOp? && op.id in t.db.jobs && t.db.jobs[op.id].state == Inferencing then
      Trail(after, t.log, t.committed + Numbered(t.db.nextRow, op.rows), t.rowsOf[op.id := Numbered(t.db.nextRow, op.rows).Keys])
    else t.(db := after)
  }

  /** A step that commits nothing: rows are kept or dropped as they are, and a job with a result has had
      it, with all its rows. */
  ghost predicate RowsCarried(before: Db, after: Db) {
    && after.nextRow == before.nextRow
    && (forall r :: r in after.outbox ==>
          r in before.outbox && after.outbox[r].job == before.outbox[r].job && after.outbox[r].message == before.outbox[r].message
          && after.outbox[r].published == before.outbox[r].published)
    && (forall id :: id in after.jobs && HasResult(after.jobs[id].state) ==>
          id in before.jobs && HasResult(before.jobs[id].state)
          && forall r :: r in before.outbox && before.outbox[r].job == id ==> r in after.outbox)
  }

  lemma CarriedStaysGated(t: Trail, budget: int, after: Db)
    requires Gated(t, budget) && RowsCarried(t.db, after) && Inv(after, budget) && Confirmed(after)
    ensures Gated(t.(db := after), budget)
  {
    hide Inv, Confirmed;
  }

  /** An edge that is not a bare commit leads into the result states only from them. */
  lemma SetStateCarries(db: Db, id: Id, expected: JobState, next: JobState, f: Fields)
    requires !BareEdge(TransitionOp(id, expected, next, f))
    ensures RowsCarried(db, Committed(db, SetState(db, id, expected, next, f)))
  {
    hide IsLegal;
    if IsLegal(expected, next) && HasResult(next) { ResultsComeFromResults(expected, next); }
  }

  lemma ResultsComeFromResults(current: JobState, next: JobState)
    requires IsLegal(current, next) && HasResult(next) && !(current == Inferencing && next == ResultCommitted)
    ensures HasResult(current)
  {
  }

  lemma CleanupCarries(db: Db, budget: int, op: Op)
    requires op.IntentOp? || op.CompleteOp? || op.FailOp?
    ensures RowsCarried(db, Perform(db, budget, op))
  {
    hide RowsCarried;
    match op
    case IntentOp(intent, now) =>
      if intent.id in db.jobs {
        var stored := db.(intents := db.intents[intent.id := IntentRow(intent, None, now)]);
        SetStateCarries(stored, intent.id, db.jobs[intent.id].state, CleanupPending, NO_FIELDS);
        SameRows(db, stored, Committed(stored, SetState(stored, intent.id, db.jobs[intent.id].state, CleanupPending, NO_FIELDS)));
        SameRows(db, stored, stored);
      }
      SameRows(db, db, db);
    case CompleteOp(id, observed) =>
      if id in db.jobs && CompletingEdge(db.jobs[id].state).Some? {
        var noted := Observe(db, id, Some(observed));
        SetStateCarries(noted, id, db.jobs[id].state, CompletingEdge(db.jobs[id].state).value, NO_FIELDS);
        SameRows(db, noted, Committed(noted, SetState(noted, id, db.jobs[id].state, CompletingEdge(db.jobs[id].state).value, NO_FIELDS)));
      }
      SameRows(db, db, db);
    case FailOp(id, error) =>
      if id in db.jobs {
        var noted := Observe(db, id, None);
        var next := if db.jobs[id].state == CleanupPending then CleanupFailed else db.jobs[id].state;
        SetStateCarries(noted, id, db.jobs[id].state, next, WithError(error));
        SameRows(db, noted, Committed(noted, SetState(noted, id, db.jobs[id].state, next, WithError(error))));
      }
      SameRows(db, db, db);
  }

  /** Intents play no part in what happens to rows. */
  lemma SameRows(db: Db, stored: Db, after: Db)
    requires stored == db.(intents := stored.intents)
    ensures RowsCarried(stored, after) ==> RowsCarried(db, after)
    ensures RowsCarried(db, stored)
  {
  }

  lemma RetryCarries(db: Db, id: Id)
    ensures RowsCarried(db, Committed(db, RetryPublication(db, id)))
  {
    SetStateCarries(db, id, PublishExhausted, PublishPending, NO_FIELDS);
  }

  lemma AttemptCarries(db: Db, row: nat, error: string)
    ensures RowsCarried(db, Committed(db, MarkPublishAttempt(db, row, error)))
  {
  }

  lemma ReinferCarries(db: Db, id: Id, reason: string)
    ensures RowsCarried(db, Committed(db, RequeueForReinference(db, id, reason)))
  {
    if id in db.jobs && Invalidatable(db.jobs[id].state) { ReinferShape(db, id, reason); }
  }

  lemma AdmitCarries(db: Db, budget: int, op: Op)
    requires op.AdmitOp? || op.UnblockOp? || op.RecoverOp?
    ensures RowsCarried(db, Perform(db, budget, op))
  {
  }

  lemma OtherCarries(db: Db, budget: int, op: Op)
    requires !BareEdge(op)
    requires op.AdmitOp? || op.TransitionOp? || op.AttemptOp? || op.RetryOp? || op.ReinferOp? || op.UnblockOp? || op.RecoverOp?
    ensures RowsCarried(db, Perform(db, budget, op))
  {
    hide RowsCarried;
    match op
    case TransitionOp(id, expected, next, f) => SetStateCarries(db, id, expected, next, f);
    case RetryOp(id) => RetryCarries(db, id);
    case ReinferOp(id, reason) => ReinferCarries(db, id, reason);
    case AttemptOp(row, error) => AttemptCarries(db, row, error);
    case _ => AdmitCarries(db, budget, op);
  }

  lemma {:induction false} InsertedMessages(db: Db, id: Id, rows: seq<Message>)
    requires forall r :: r in db.outbox ==> r < db.nextRow
    ensures var after := InsertRows(db, id, rows).outbox;
      && (forall r :: r in db.outbox ==> r in after && after[r] == db.outbox[r])
      && (forall r :: r in after && r !in db.outbox <==> r in Numbered(db.nextRow, rows))
      && (forall r :: r in Numbered(db.nextRow, rows) ==> after[r] == OutboxRow(id, Numbered(db.nextRow, rows)[r], 0, false, None))
    decreases |rows|
  {
    if rows != [] {
      var row := OutboxRow(id, rows[0], 0, false, None);
      InsertedMessages(db.(outbox := db.outbox[db.nextRow := row], nextRow := db.nextRow + 1), id, rows[1..]);
    }
  }

  lemma CommitStaysGated(t: Trail, budget: int, op: Op)
    requires Gated(t, budget) && op.CommitOp? && op.id in t.db.jobs && t.db.jobs[op.id].state == Inferencing
    ensures Gated(Follow(t, budget, op), budget)
  {
    hide Inv, Confirmed, Truthful, Complete, RowsAdded, InsertRows;
    InferencingHasNoRows(t.db, budget, op.id);
    CommitKeeps(t.db, budget, op.id, op.result, op.sidecar, op.rows);
    CommitConfirms(t.db, op.id, op.result, op.sidecar, op.rows);
    CommitShape(t.db, op.id, op.result, op.sidecar, op.rows);
    var u := Follow(t, budget, op);
    assert u.db == WithRows(t.db, op.id, op.result, op.sidecar, op.rows);
    CommitAddsRows(t.db, op.id, op.result, op.sidecar, op.rows);
    CommitIsTruthful(t, u, op.id, op.rows);
    CommitIsComplete(t, u, op.id, op.rows);
  }

  ghost predicate RowsAdded(before: Db, after: Db, id: Id, rows: seq<Message>) {
    && after.nextRow == before.nextRow + |rows|
    && (forall r :: r in before.outbox ==> r in after.outbox && after.outbox[r] == before.outbox[r])
    && (forall r :: r in after.outbox && r !in before.outbox <==> r in Numbered(before.nextRow, rows))
    && (forall r :: r in Numbered(before.nextRow, rows) ==>
          after.outbox[r] == OutboxRow(id, Numbered(before.nextRow, rows)[r], 0, false, None))
  }

  lemma CommitAddsRows(db: Db, id: Id, result: Bytes, sidecar: Option<Sidecar>, rows: seq<Message>)
    requires id in db.jobs && forall r :: r in db.outbox ==> r < db.nextRow
    ensures RowsAdded(db, WithRows(db, id, result, sidecar, rows), id, rows)
  {
    InsertedMessages(db, id, rows);
  }

  lemma InferencingHasNoRows(db: Db, budget: int, id: Id)
    requires Inv(db, budget) && id in db.jobs && db.jobs[id].state == Inferencing
    ensures forall r :: r in db.outbox ==> r < db.nextRow && db.outbox[r].job != id
  {
  }

  lemma CommitIsTruthful(t: Trail, u: Trail, id: Id, rows: seq<Message>)
    requires Truthful(t) && RowsAdded(t.db, u.db, id, rows)
    requires forall r :: r in t.db.outbox ==> r < t.db.nextRow
    requires u.log == t.log && u.committed == t.committed + Numbered(t.db.nextRow, rows)
    ensures Truthful(u)
  {
  }

  lemma CommitIsComplete(t: Trail, u: Trail, id: Id, rows: seq<Message>)
    requires Complete(t.db, t.rowsOf) && RowsAdded(t.db, u.db, id, rows)
    requires forall r :: r in t.db.outbox ==> t.db.outbox[r].job != id
    requires forall other :: other in u.db.jobs && other != id ==> other in t.db.jobs && u.db.jobs[other] == t.db.jobs[other]
    requires u.rowsOf == t.rowsOf[id := Numbered(t.db.nextRow, rows).Keys]
    ensures Complete(u.db, u.rowsOf)
  {
  }

  /** Any ledger operation other than a confirmation keeps the gate. */
  lemma OpStaysGated(t: Trail, budget: int, op: Op)
    requires Gated(t, budget) && !op.PublishedOp? && !BareEdge(op)
    ensures Gated(Follow(t, budget, op), budget)
  {
    hide Inv, Confirmed, Truthful, Complete, RowsCarried, Perform;
    if op.CommitOp? {
      if op.id in t.db.jobs && t.db.jobs[op.id].state == Inferencing {
        CommitStaysGated(t, budget, op);
      } else {
        RefusedCommit(t.db, budget, op);
      }
    } else {
      OpKeeps(t.db, budget, op);
      OpConfirms(t.db, budget, op);
      if op.IntentOp? || op.CompleteOp? || op.FailOp? { CleanupCarries(t.db, budget, op); } else { OtherCarries(t.db, budget, op); }
      CarriedStaysGated(t, budget, Perform(t.db, budget, op));
    }
  }

  lemma RefusedCommit(db: Db, budget: int, op: Op)
    requires op.CommitOp? && !(op.id in db.jobs && db.jobs[op.id].state == Inferencing)
    ensures Perform(db, budget, op) == db
  {
  }

  /** A confirmation changes one row, and may move its job on to PUBLISHED. */
  ghost predicate RowConfirmed(before: Db, after: Db, row: nat) {
    && row in before.outbox && after.nextRow == before.nextRow
    && after.outbox == before.outbox[row := before.outbox[row].(published := true, lastError := None)]
    && after.jobs.Keys == before.jobs.Keys
    && forall id :: id in after.jobs ==> HasResult(after.jobs[id].state) == HasResult(before.jobs[id].state)
  }

  lemma MarkShape(db: Db, row: nat)
    ensures MarkPublished(db, row).Ok? ==> RowConfirmed(db, MarkPublished(db, row).value, row)
  {
  }

  lemma ConfirmedStaysTruthful(t: Trail, after: Db, row: nat)
    requires Truthful(t) && Complete(t.db, t.rowsOf) && InLog(t.log, row) && RowConfirmed(t.db, after, row)
    ensures Truthful(t.(db := after)) && Complete(after, t.rowsOf)
  {
  }

  /** Confirming a row the broker accepted keeps the gate. */
  lemma MarkStaysGated(t: Trail, budget: int, row: nat)
    requires Gated(t, budget) && InLog(t.log, row)
    ensures Gated(t.(db := Perform(t.db, budget, PublishedOp(row))), budget)
  {
    hide Inv, Confirmed, Truthful, Complete, RowConfirmed, MarkPublished;
    PublishedKeeps(t.db, budget, row);
    MarkShape(t.db, row);
    var r := MarkPublished(t.db, row);
    if r.Ok? { ConfirmedStaysTruthful(t, r.value, row); }
  }

  // -- every interleaving ------------------------------------------------------------------------

  /** The trail, what any drains hold of it, and which rows the broker accepted from them. */
  datatype World = World(trail: Trail, held: set<Entry>, accepted: set<nat>)

  /** One thing that can happen. Several drains may run: what they hold and have had accepted is the
      union over them. A broker may accept a message and the drain never learn of it. */
  datatype Event =
    | Operate(op: Op)
    | Fetch(limit: nat)
    | Send(entry: Entry, learned: bool)
    | Confirm(row: nat)
    | Crash

  /** What a drain reads: the eligible rows, with their frozen bytes. */
  function Batch(db: Db, limit: nat): set<Entry> {
    set r | r in PendingFrom(db, 0, limit) && r in db.outbox :: Entry(r, db.outbox[r].message)
  }

  predicate Enabled(w: World, e: Event) {
    match e
    case Operate(op) => !op.PublishedOp? && !BareEdge(op)
    case Send(entry, _) => entry in w.held
    case Confirm(row) => row in w.accepted
    case _ => true
  }

  ghost function Next(w: World, budget: int, e: Event): World
    requires Enabled(w, e)
  {
    match e
    case Operate(op) => w.(trail := Follow(w.trail, budget, op))
    case Fetch(limit) => w.(held := w.held + Batch(w.trail.db, limit))
    case Send(entry, learned) =>
      w.(trail := w.trail.(log := w.trail.log + [entry]), accepted := if learned then w.accepted + {entry.row} else w.accepted)
    case Confirm(row) => w.(trail := w.trail.(db := Perform(w.trail.db, budget, PublishedOp(row))))
    case Crash => w.(held := {}, accepted := {})
  }

  ghost predicate Sane(w: World, budget: int) {
    && Gated(w.trail, budget)
    && (forall e :: e in w.held ==> e.row in w.trail.committed && e.message == w.trail.committed[e.row])
    && (forall r :: r in w.accepted ==> InLog(w.trail.log, r))
  }

  lemma LogGrows(log: seq<Entry>, entry: Entry)
    ensures InLog(log + [entry], entry.row)
    ensures forall r :: InLog(log, r) ==> InLog(log + [entry], r)
  {
    assert (log + [entry])[|log|] == entry;
    forall r | InLog(log, r) ensures InLog(log + [entry], r) {
      var i :| 0 <= i < |log| && log[i].row == r;
      assert (log + [entry])[i].row == r;
    }
  }

  lemma SendStaysGated(t: Trail, budget: int, entry: Entry)
    requires Gated(t, budget) && entry.row in t.committed && entry.message == t.committed[entry.row]
    ensures Gated(t.(log := t.log + [entry]), budget)
  {
    hide Inv, Confirmed;
    LogGrows(t.log, entry);
  }

  /** Committed rows are never renumbered and never change. */
  lemma CommittedGrows(t: Trail, budget: int, op: Op)
    requires Gated(t, budget)
    ensures forall r :: r in t.committed ==> r in Follow(t, budget, op).committed && Follow(t, budget, op).committed[r] == t.committed[r]
    ensures Follow(t, budget, op).log == t.log
  {
    hide Inv, Confirmed, Perform;
  }

  lemma EventIsSane(w: World, budget: int, e: Event)
    requires Sane(w, budget) && Enabled(w, e)
    ensures Sane(Next(w, budget, e), budget)
  {
    hide Gated, Perform, Follow, InLog;
    match e
    case Operate(op) =>
      OpStaysGated(w.trail, budget, op);
      CommittedGrows(w.trail, budget, op);
    case Fetch(limit) => BatchIsCommitted(w.trail, budget, limit);
    case Send(entry, _) =>
      SendStaysGated(w.trail, budget, entry);
      LogGrows(w.trail.log, entry);
    case Confirm(row) => MarkStaysGated(w.trail, budget, row);
    case Crash =>
  }

  lemma BatchIsCommitted(t: Trail, budget: int, limit: nat)
    requires Gated(t, budget)
    ensures forall e :: e in Batch(t.db, limit) ==> e.row in t.committed && e.message == t.committed[e.row]
  {
    hide Inv, Confirmed, PendingFrom;
  }

  ghost predicate Runs(w: World, budget: int, events: seq<Event>, last: World)
    decreases |events|
  {
    if events == [] then last == w
    else Enabled(w, events[0]) && Runs(Next(w, budget, events[0]), budget, events[1..], last)
  }

  /** Over every run of commits, drains, crashes, re-publications, exhaustions, operator retries and
      re-inferences, the gate holds. */
  lemma {:induction false} RunsAreSane(w: World, budget: int, events: seq<Event>, last: World)
    requires Sane(w, budget) && Runs(w, budget, events, last)
    ensures Sane(last, budget)
    decreases |events|
  {
    hide Sane, Next;
    if events != [] {
      EventIsSane(w, budget, events[0]);
      RunsAreSane(Next(w, budget, events[0]), budget, events[1..], last);
    }
  }

  lemma StartIsSane(budget: int)
    ensures Sane(World(Trail(EMPTY_DB, [], map[], map[]), {}, {}), budget)
  {
    EmptyIsGood(budget);
  }
}
