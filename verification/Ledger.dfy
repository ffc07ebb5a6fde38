// The ledger object. Each public operation is one transaction over the tables it holds, proved to
// take the database exactly where LedgerSpec says and to leave it alone when it refuses.

module LedgerStore {
  import opened Wrappers
  import opened Lifecycle
  import opened Ordering
  import opened Sums
  import opened LedgerSpec
  import opened LedgerFacts
  import opened Paging

  /** What one recovery pass did and found. */
  datatype Report = Report(transitions: map<Edge, nat>, cleanupPending: seq<Id>, publishPending: seq<Id>, sidecars: seq<SidecarRecord>)
  {
    function Count(e: Edge): nat {
      if e in transitions then transitions[e] else 0
    }
  }

  /** Assemble the edge counts of the applied moves. */
  method CountTransitions(moves: seq<Move>) returns (transitions: map<Edge, nat>)
    ensures forall e :: (if e in transitions then transitions[e] else 0) == CountEdge(moves, e)
  {
    transitions := map[];
    for k := 0 to |moves|
      invariant forall e :: (if e in transitions then transitions[e] else 0) == CountEdge(moves[..k], e)
    {
      var e := (moves[k].current, moves[k].next);
      transitions := transitions[e := (if e in transitions then transitions[e] else 0) + 1];
      assert moves[..k + 1][..k] == moves[..k];
    }
    assert moves[..|moves|] == moves;
  }

  class Ledger {
    const budget: int
    var jobs: map<Id, Job>
    var outbox: map<nat, OutboxRow>
    var nextRow: nat
    var intents: map<Id, IntentRow>
    var reservations: map<Id, nat>

    constructor (budget: int)
      ensures this.budget == budget && View() == EMPTY_DB
    {
      this.budget := budget;
      jobs, outbox, nextRow, intents, reservations := map[], map[], 0, map[], map[];
    }

    function View(): Db
      reads this
    {
      Db(jobs, outbox, nextRow, intents, reservations)
    }

    // -- jobs ----------------------------------------------------------------------------------

    /** SELECT SUM(bytes) FROM reservations. */
    method Held() returns (held: nat)
      ensures held == Total(reservations)
    {
      held := AddUp(reservations);
    }

    method Admit(job: Job, reserve: int, now: int) returns (r: Result<bool, Refusal>)
      modifies this
      ensures match LedgerSpec.Admit(old(View()), budget, job, reserve, now)
              case Ok((db, admitted)) => r == Ok(admitted) && View() == db
              case Err(why) => r == Err(why) && View() == old(View())
    {
      if !Initial(job.state) { return Err(Illegal); }
      if reserve < 0 { return Err(BadValue); }
      if job.id in jobs { return Ok(false); }
      var held := Held();
      if held + reserve > budget { return Ok(false); }
      jobs := jobs[job.id := job.(createdAt := now, result := None, sidecar := None, lastError := None)];
      reservations := reservations[job.id := reserve];
      return Ok(true);
    }

    method SetState(id: Id, expected: JobState, next: JobState, f: Fields) returns (r: Result<Job, Refusal>)
      modifies this`jobs, this`reservations
      ensures match LedgerSpec.SetState(old(View()), id, expected, next, f)
              case Ok(db) => View() == db && r == Ok(db.jobs[id])
              case Err(why) => View() == old(View()) && r == Err(why)
    {
      hide IsLegal, Terminal;
      if id !in jobs { return Err(Conflict); }
      var current := jobs[id].state;
      if current != expected { return Err(Conflict); }
      if current != next && !IsLegal(current, next) { return Err(Illegal); }
      jobs := jobs[id := Moved(jobs[id], next, f)];
      if Terminal(next) { reservations := reservations - {id}; }
      return Ok(jobs[id]);
    }

    method ForceState(id: Id, next: JobState, f: Fields) returns (r: Result<Job, Refusal>)
      requires id in jobs
      modifies this`jobs
      ensures match LedgerSpec.ForceState(old(View()), id, next, f)
              case Ok(db) => View() == db && r == Ok(db.jobs[id])
              case Err(why) => View() == old(View()) && r == Err(why)
    {
      if !IsRecoveryEdge(jobs[id].state, next) { return Err(Illegal); }
      jobs := jobs[id := Moved(jobs[id], next, f)];
      return Ok(jobs[id]);
    }

    // -- result and outbox ---------------------------------------------------------------------

    /** Insert the rows of one commit, in publication order. */
    method InsertOutbox(id: Id, rows: seq<Message>)
      modifies this`outbox, this`nextRow
      ensures View() == InsertRows(old(View()), id, rows)
    {
      hide InsertRows;
      ghost var target := InsertRows(View(), id, rows);
      InsertKeepsJobs(View(), id, rows);
      assert rows[0..] == rows;
      for k := 0 to |rows|
        invariant InsertRows(View(), id, rows[k..]) == target
      {
        InsertNext(View(), id, rows, k);
        outbox, nextRow := outbox[nextRow := OutboxRow(id, rows[k], 0, false, None)], nextRow + 1;
      }
      InsertNone(View(), id, rows[|rows|..]);
    }

    method CommitResult(id: Id, result: Bytes, sidecar: Option<Sidecar>, rows: seq<Message>) returns (r: Result<(), Refusal>)
      modifies this
      ensures match LedgerSpec.CommitResult(old(View()), id, result, sidecar, rows)
              case Ok(db) => View() == db && r == Ok(())
              case Err(why) => View() == old(View()) && r == Err(why)
    {
      hide InsertRows, LedgerSpec.SetState;
      if id !in jobs || jobs[id].state != Inferencing { return Err(Conflict); }
      jobs := jobs[id := jobs[id].(result := Some(result), sidecar := sidecar)];
      InsertKeepsJobs(View(), id, rows);
      InsertOutbox(id, rows);
      CommitSucceeds(View(), id, rows);
      var committed := SetState(id, Inferencing, ResultCommitted, NO_FIELDS);
      if rows != [] {
        var pending := SetState(id, ResultCommitted, PublishPending, NO_FIELDS);
      }
      return Ok(());
    }

    /** The next batch for a drain. */
    method PendingOutbox(limit: nat) returns (ids: seq<nat>)
      ensures FirstEligible(View(), ids, 0, limit)
    {
      PendingIsFirst(View(), 0, limit);
      ids := PendingFrom(View(), 0, limit);
    }

    method MarkPublished(row: nat) returns (r: Result<(), Refusal>)
      modifies this
      ensures match LedgerSpec.MarkPublished(old(View()), row)
              case Ok(db) => View() == db && r == Ok(())
              case Err(why) => View() == old(View()) && r == Err(why)
    {
      if row !in outbox || outbox[row].job !in jobs { return Err(Conflict); }
      var id := outbox[row].job;
      outbox := outbox[row := outbox[row].(published := true, lastError := None)];
      if GatingDone(outbox, id) && jobs[id].state == PublishPending {
        var moved := SetState(id, PublishPending, Published, NO_FIELDS);
      }
      return Ok(());
    }

    method MarkPublishAttempt(row: nat, error: string) returns (r: Result<(), Refusal>)
      modifies this`outbox
      ensures match LedgerSpec.MarkPublishAttempt(old(View()), row, error)
              case Ok(db) => View() == db && r == Ok(())
              case Err(why) => View() == old(View()) && r == Err(why)
    {
      if row !in outbox || outbox[row].published { return Err(Conflict); }
      outbox := outbox[row := outbox[row].(attempts := outbox[row].attempts + 1, lastError := Some(error))];
      return Ok(());
    }

    method RetryPublication(id: Id) returns (r: Result<Job, Refusal>)
      modifies this
      ensures match LedgerSpec.RetryPublication(old(View()), id)
              case Ok(db) => View() == db && r == Ok(db.jobs[id])
              case Err(why) => View() == old(View()) && r == Err(why)
    {
      r := SetState(id, PublishExhausted, PublishPending, NO_FIELDS);
      if r.Ok? { outbox := Restarted(outbox, id); }
    }

    // -- cleanup -------------------------------------------------------------------------------

    /** A refusal rolls the stored intent back with the rest of the transaction. */
    method RecordCleanupIntent(intent: Intent, now: int) returns (r: Result<Job, Refusal>)
      modifies this
      ensures match RecordIntent(old(View()), intent, now)
              case Ok(db) => View() == db && r == Ok(db.jobs[intent.id])
              case Err(why) => View() == old(View()) && r == Err(why)
    {
      if intent.id !in jobs { return Err(Conflict); }
      var current := jobs[intent.id].state;
      var before := intents;
      intents := intents[intent.id := IntentRow(intent, None, now)];
      if current == Published || current == CleanupFailed {
        r := SetState(intent.id, current, CleanupPending, NO_FIELDS);
      } else if current == InputInvalid || current == ProcessingExhausted || current == CleanupPending {
        r := Ok(jobs[intent.id]);
      } else {
        intents := before;
        r := Err(Illegal);
      }
    }

    method CompleteCleanup(id: Id, observed: string) returns (r: Result<Job, Refusal>)
      modifies this
      ensures match LedgerSpec.CompleteCleanup(old(View()), id, observed)
              case Ok(db) => View() == db && r == Ok(db.jobs[id])
              case Err(why) => View() == old(View()) && r == Err(why)
    {
      if id !in jobs { return Err(Conflict); }
      var edge := CompletingEdge(jobs[id].state);
      if edge.None? { return Err(Illegal); }
      if id in intents { intents := intents[id := intents[id].(observed := Some(observed))]; }
      r := SetState(id, jobs[id].state, edge.value, NO_FIELDS);
    }

    method FailCleanup(id: Id, error: string) returns (r: Result<Job, Refusal>)
      modifies this
      ensures match LedgerSpec.FailCleanup(old(View()), id, error)
              case Ok(db) => View() == db && r == Ok(db.jobs[id])
              case Err(why) => View() == old(View()) && r == Err(why)
    {
      if id !in jobs { return Err(Conflict); }
      var current := jobs[id].state;
      if id in intents { intents := intents[id := intents[id].(observed := None)]; }
      r := SetState(id, current, if current == CleanupPending then CleanupFailed else current, WithError(error));
    }

    // -- recovery ------------------------------------------------------------------------------

    method RequeueForReinference(id: Id, reason: string) returns (r: Result<Job, Refusal>)
      modifies this
      ensures match LedgerSpec.RequeueForReinference(old(View()), id, reason)
              case Ok(db) => View() == db && r == Ok(db.jobs[id])
              case Err(why) => View() == old(View()) && r == Err(why)
    {
      if id !in jobs { return Err(Conflict); }
      if !Invalidatable(jobs[id].state) { return Err(Illegal); }
      outbox := WithoutRows(outbox, id);
      jobs := jobs[id := jobs[id].(result := None, sidecar := None)];
      r := ForceState(id, Ready, WithError(reason));
    }

    /** SELECT inference_id ... ORDER BY created_at_ms, inference_id. */
    method Select(keys: set<Key>) returns (ids: seq<Id>)
      ensures ids == IdsOf(Ordered(keys))
    {
      KeysAreTotal();
      var s := OrderBy(KeyLess, keys);
      SortedUnique(KeyLess, s, Ordered(keys), keys);
      ids := seq(|s|, k requires 0 <= k < |s| => s[k].1);
    }

    /** One page of the jobs in some states, oldest first. */
    method ByState(states: set<JobState>, route: Option<string>, cursor: Option<Key>, limit: nat)
      returns (page: seq<Key>, next: Option<Key>)
      requires limit >= 1
      ensures (page, next) == Page(Matching(jobs, states, route), cursor, limit)
    {
      KeysAreTotal();
      var keys := After(Matching(jobs, states, route), cursor);
      var rows := OrderBy(KeyLess, keys);
      SortedUnique(KeyLess, rows, Ordered(keys), keys);
      if |rows| > limit { return rows[..limit], Some(rows[limit - 1]); }
      return rows, None;
    }

    /** Force each listed job back to Ready, one recovery edge at a time. */
    method ForceReady(ids: seq<Id>)
      requires Distinct(ids)
      requires forall k :: 0 <= k < |ids| ==> ids[k] in jobs && IsRecoveryEdge(jobs[ids[k]].state, Ready)
      modifies this`jobs
      ensures jobs == map id | id in old(jobs) :: if id in ids then old(jobs)[id].(state := Ready) else old(jobs)[id]
    {
      for k := 0 to |ids|
        invariant jobs.Keys == old(jobs).Keys
        invariant forall id :: id in jobs ==>
          jobs[id] == if id in ids[..k] then old(jobs)[id].(state := Ready) else old(jobs)[id]
      {
        assert ids[k] !in ids[..k];
        var forced := ForceState(ids[k], Ready, NO_FIELDS);
        assert ids[..k + 1] == ids[..k] + [ids[k]];
      }
      assert ids[..|ids|] == ids;
    }

    method RequeueBlocked(route: Option<string>) returns (moved: nat)
      requires Keyed(jobs)
      modifies this`jobs
      ensures View() == LedgerSpec.RequeueBlocked(old(View()), route)
      ensures moved == |Blocked(old(jobs), route)|
    {
      var chosen := Blocked(jobs, route);
      var ids := Select(Keys(jobs, chosen));
      SelectedIds(jobs, chosen);
      ForceReady(ids);
      DistinctCount(ids, chosen);
      moved := |ids|;
    }

    /** Read the rows in order and list a move for each one that restarts. */
    method PlanRecovery(rows: seq<Id>, now: int) returns (moves: seq<Move>)
      requires forall k :: 0 <= k < |rows| ==> rows[k] in jobs
      ensures moves == Plan(jobs, rows, now)
    {
      moves := [];
      for k := 0 to |rows|
        invariant moves == Plan(jobs, rows[..k], now)
      {
        var job := jobs[rows[k]];
        assert rows[..k + 1][..k] == rows[..k];
        if job.state == Inferencing || job.state == Claimed || job.state == WaitingModel {
          moves := moves + [Move(rows[k], job.state, Ready)];
        } else if job.state == RetryWait && (job.nextAttempt.None? || job.nextAttempt.value <= now) {
          moves := moves + [Move(rows[k], job.state, Ready)];
        }
      }
      assert rows[..|rows|] == rows;
    }

    /** Plan the restart moves and take each of them. */
    method RestartJobs(now: int) returns (moves: seq<Move>)
      requires Keyed(jobs)
      modifies this`jobs
      ensures View() == LedgerSpec.Recover(old(View()), now)
      ensures forall e :: CountEdge(moves, e) == |Restarting(old(jobs), now, e)|
    {
      hide Plan, CountEdge, Restarting, Candidates;
      var rows := Select(Keys(jobs, Candidates(jobs)));
      PlanIsComplete(jobs, now);
      moves := PlanRecovery(rows, now);
      ForceReady(MoveIds(moves));
    }

    /** The sidecar files of committed results not yet cleaned up, oldest job first. */
    method Sidecars() returns (records: seq<SidecarRecord>)
      requires Keyed(jobs)
      ensures Bindings(records, jobs)
    {
      var ids := Select(Keys(jobs, Bound(jobs)));
      SelectedIds(jobs, Bound(jobs));
      records := seq(|ids|, k requires 0 <= k < |ids| && ids[k] in Bound(jobs) reads this =>
        SidecarRecord(ids[k], jobs[ids[k]].state, jobs[ids[k]].sidecar.value));
    }

    method Recover(now: int) returns (report: Report)
      requires Keyed(jobs)
      modifies this`jobs
      ensures View() == LedgerSpec.Recover(old(View()), now)
      ensures forall e :: report.Count(e) == |Restarting(old(jobs), now, e)|
      ensures report.cleanupPending == IdsOf(Ordered(OpenIntents(intents)))
      ensures report.publishPending == IdsOf(Ordered(Keys(jobs, InState(jobs, PublishPending))))
      ensures Bindings(report.sidecars, jobs)
    {
      var moves := RestartJobs(now);
      var open := Select(OpenIntents(intents));
      var pending := Select(Keys(jobs, InState(jobs, PublishPending)));
      var transitions := CountTransitions(moves);
      var sidecars := Sidecars();
      report := Report(transitions, open, pending, sidecars);
    }
  }
}
