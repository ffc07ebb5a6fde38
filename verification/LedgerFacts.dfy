// Facts the ledger methods lean on: rows inserted one at a time, and what ordered selections and
// recovery plans contain.

module LedgerFacts {
  import opened Wrappers
  import opened Lifecycle
  import opened Ordering
  import opened LedgerSpec

  /** The primary key: every row is filed under its own id. */
  ghost predicate Keyed(jobs: map<Id, Job>) {
    forall id :: id in jobs ==> jobs[id].id == id
  }

  lemma {:induction false} InsertKeepsJobs(db: Db, id: Id, rows: seq<Message>)
    ensures var r := InsertRows(db, id, rows);
            r == db.(outbox := r.outbox, nextRow := r.nextRow) && r.nextRow == db.nextRow + |rows|
    decreases |rows|
  {
    if rows != [] {
      var row := OutboxRow(id, rows[0], 0, false, None);
      InsertKeepsJobs(db.(outbox := db.outbox[db.nextRow := row], nextRow := db.nextRow + 1), id, rows[1..]);
    }
  }

  lemma InsertNext(db: Db, id: Id, rows: seq<Message>, k: nat)
    requires k < |rows|
    ensures InsertRows(db, id, rows[k..])
         == InsertRows(db.(outbox := db.outbox[db.nextRow := OutboxRow(id, rows[k], 0, false, None)], nextRow := db.nextRow + 1), id, rows[k + 1..])
  {
    assert rows[k..][0] == rows[k] && rows[k..][1..] == rows[k + 1..];
  }

  /** The compare-and-sets that end a commit are never refused. */
  lemma CommitSucceeds(db: Db, id: Id, rows: seq<Message>)
    requires id in db.jobs && db.jobs[id].state == Inferencing
    ensures SetState(db, id, Inferencing, ResultCommitted, NO_FIELDS).Ok?
    ensures SetState(SetState(db, id, Inferencing, ResultCommitted, NO_FIELDS).value, id, ResultCommitted, PublishPending, NO_FIELDS).Ok?
  {
  }

  lemma InsertNone(db: Db, id: Id, rows: seq<Message>)
    requires rows == []
    ensures InsertRows(db, id, rows) == db
  {
  }

  // -- ordered selections ----------------------------------------------------------------------

  ghost function Ordered(keys: set<Key>): (s: seq<Key>)
    ensures Enumerates(KeyLess, s, keys)
  {
    KeysAreTotal();
    InOrder(KeyLess, keys)
  }

  ghost function IdsOf(keys: seq<Key>): (ids: seq<Id>)
    ensures |ids| == |keys| && forall k :: 0 <= k < |ids| ==> ids[k] == keys[k].1
  {
    seq(|keys|, k requires 0 <= k < |keys| => keys[k].1)
  }

  /** The sort keys of some jobs. */
  function Keys(jobs: map<Id, Job>, chosen: set<Id>): (keys: set<Key>)
    requires chosen <= jobs.Keys
  {
    set id | id in chosen :: KeyOf(jobs[id])
  }

  function InState(jobs: map<Id, Job>, state: JobState): (ids: set<Id>)
    ensures ids <= jobs.Keys
  {
    set id | id in jobs && jobs[id].state == state
  }

  /** The binding of a committed result to its sidecar file. */
  datatype SidecarRecord = SidecarRecord(id: Id, state: JobState, sidecar: Sidecar)

  /** The jobs whose committed result has a sidecar and no cleanup yet. */
  function Bound(jobs: map<Id, Job>): (ids: set<Id>)
    ensures ids <= jobs.Keys && forall id :: id in ids ==> jobs[id].sidecar.Some?
  {
    set id | id in jobs && jobs[id].sidecar.Some? && jobs[id].state in {ResultCommitted, PublishPending, PublishExhausted}
  }

  /** The bindings of all of those, oldest job first. */
  ghost predicate Bindings(records: seq<SidecarRecord>, jobs: map<Id, Job>) {
    var ids := IdsOf(Ordered(Keys(jobs, Bound(jobs))));
    |records| == |ids| && forall k :: 0 <= k < |ids| ==> Binds(records[k], jobs, ids[k])
  }

  predicate Binds(record: SidecarRecord, jobs: map<Id, Job>, id: Id) {
    id in Bound(jobs) && record == SidecarRecord(id, jobs[id].state, jobs[id].sidecar.value)
  }

  function Blocked(jobs: map<Id, Job>, route: Option<string>): (ids: set<Id>)
    ensures ids <= jobs.Keys
  {
    set id | id in jobs && Unblocks(jobs[id], route)
  }

  /** The intents not yet observed to succeed. */
  function OpenIntents(intents: map<Id, IntentRow>): set<Key> {
    set id | id in intents && intents[id].observed.None? :: (intents[id].createdAt, id)
  }

  predicate Distinct(ids: seq<Id>) {
    forall i, j :: 0 <= i < j < |ids| ==> ids[i] != ids[j]
  }

  /** Selecting the keys of some jobs yields each of those jobs once. */
  lemma SelectedIds(jobs: map<Id, Job>, chosen: set<Id>)
    requires Keyed(jobs) && chosen <= jobs.Keys
    ensures var ids := IdsOf(Ordered(Keys(jobs, chosen)));
            && Distinct(ids) && (forall id :: id in ids <==> id in chosen)
            && forall k :: 0 <= k < |ids| ==> ids[k] in chosen
  {
    var keys := Keys(jobs, chosen);
    var s := Ordered(keys);
    var ids := IdsOf(s);
    KeysAreTotal();
    forall k | 0 <= k < |s| ensures ids[k] in chosen && s[k] == KeyOf(jobs[ids[k]]) {
      assert s[k] in keys;
    }
    forall i, j | 0 <= i < j < |ids| ensures ids[i] != ids[j] {
      assert KeyLess(s[i], s[j]);
    }
    forall id | id in chosen ensures id in ids {
      assert KeyOf(jobs[id]) in keys;
      var k :| 0 <= k < |s| && s[k] == KeyOf(jobs[id]);
      assert ids[k] == id;
    }
  }

  lemma {:induction false} DistinctCount(ids: seq<Id>, members: set<Id>)
    requires Distinct(ids) && forall id :: id in ids <==> id in members
    ensures |ids| == |members|
    decreases |ids|
  {
    if ids == [] {
      assert members == {};
    } else {
      var last := ids[|ids| - 1];
      var front := ids[..|ids| - 1];
      assert ids == front + [last];
      assert last in members;
      DistinctCount(front, members - {last});
    }
  }

  // -- eligible rows ---------------------------------------------------------------------------

  /** The first eligible rows in insertion order: a row that is missing comes after all that are listed,
      and only because the list is full. */
  ghost predicate FirstEligible(db: Db, ids: seq<nat>, start: nat, limit: nat) {
    && |ids| <= limit
    && (forall k :: 0 <= k < |ids| ==> start <= ids[k] < db.nextRow && Eligible(db, ids[k]))
    && (forall i, j :: 0 <= i < j < |ids| ==> ids[i] < ids[j])
    && (forall r :: start <= r < db.nextRow && Eligible(db, r) && r !in ids ==>
          |ids| == limit && forall k :: 0 <= k < |ids| ==> ids[k] < r)
  }

  lemma {:induction false} PendingIsFirst(db: Db, start: nat, limit: nat)
    ensures FirstEligible(db, PendingFrom(db, start, limit), start, limit)
    decreases db.nextRow - start
  {
    if start < db.nextRow && limit > 0 {
      PendingIsFirst(db, start + 1, if Eligible(db, start) then limit - 1 else limit);
      if Eligible(db, start) { OneMoreEligible(db, start, PendingFrom(db, start + 1, limit - 1), limit); }
    }
  }

  lemma OneMoreEligible(db: Db, start: nat, rest: seq<nat>, limit: nat)
    requires Eligible(db, start) && start < db.nextRow && limit > 0 && FirstEligible(db, rest, start + 1, limit - 1)
    ensures FirstEligible(db, [start] + rest, start, limit)
  {
    hide Eligible;
    var ids := [start] + rest;
    forall r | start <= r < db.nextRow && Eligible(db, r) && r !in ids
      ensures |ids| == limit && forall k :: 0 <= k < |ids| ==> ids[k] < r
    {
      assert ids[0] == start && r != start && r !in rest;
    }
  }

  // -- recovery plans --------------------------------------------------------------------------

  datatype Move = Move(id: Id, current: JobState, next: JobState)

  type Edge = (JobState, JobState)

  /** The restart moves of the listed jobs, in the order the rows arrived. */
  function Plan(jobs: map<Id, Job>, rows: seq<Id>, now: int): (moves: seq<Move>)
    requires forall k :: 0 <= k < |rows| ==> rows[k] in jobs
  {
    if rows == [] then []
    else
      var front := Plan(jobs, rows[..|rows| - 1], now);
      var id := rows[|rows| - 1];
      if Restarts(jobs[id], now) then front + [Move(id, jobs[id].state, Ready)] else front
  }

  function CountEdge(moves: seq<Move>, e: Edge): nat {
    if moves == [] then 0
    else
      var m := moves[|moves| - 1];
      CountEdge(moves[..|moves| - 1], e) + if (m.current, m.next) == e then 1 else 0
  }

  /** The listed jobs that restart, each once and along its own edge. */
  ghost predicate PlansFor(jobs: map<Id, Job>, rows: seq<Id>, now: int, moves: seq<Move>) {
    && (forall i, j :: 0 <= i < j < |moves| ==> moves[i].id != moves[j].id)
    && (forall i :: 0 <= i < |moves| ==> moves[i].id in rows && moves[i].id in jobs && Restarts(jobs[moves[i].id], now)
                                         && moves[i].current == jobs[moves[i].id].state && moves[i].next == Ready)
    && (forall id :: id in rows && id in jobs && Restarts(jobs[id], now) ==> exists i :: 0 <= i < |moves| && moves[i].id == id)
  }

  lemma PlanStep(jobs: map<Id, Job>, rows: seq<Id>, now: int)
    requires rows != [] && forall k :: 0 <= k < |rows| ==> rows[k] in jobs
    ensures var id := rows[|rows| - 1];
            Plan(jobs, rows, now)
            == Plan(jobs, rows[..|rows| - 1], now) + if Restarts(jobs[id], now) then [Move(id, jobs[id].state, Ready)] else []
  {
  }

  lemma PlanSkips(jobs: map<Id, Job>, front: seq<Id>, last: Id, now: int, moves: seq<Move>)
    requires PlansFor(jobs, front, now, moves) && last in jobs && !Restarts(jobs[last], now)
    ensures PlansFor(jobs, front + [last], now, moves + [])
  {
    hide Restarts;
    assert moves + [] == moves;
  }

  lemma PlanGrows(jobs: map<Id, Job>, front: seq<Id>, last: Id, now: int, moves: seq<Move>)
    requires PlansFor(jobs, front, now, moves) && last in jobs && Restarts(jobs[last], now) && last !in front
    ensures PlansFor(jobs, front + [last], now, moves + [Move(last, jobs[last].state, Ready)])
  {
    hide Restarts;
    var rows, after := front + [last], moves + [Move(last, jobs[last].state, Ready)];
    forall id | id in rows && id in jobs && Restarts(jobs[id], now) ensures exists i :: 0 <= i < |after| && after[i].id == id {
      if id == last {
        assert after[|moves|].id == id;
      } else {
        var i :| 0 <= i < |moves| && moves[i].id == id;
        assert after[i].id == id;
      }
    }
  }

  /** The plan moves exactly the listed jobs that restart, each once and along its own edge. */
  lemma {:induction false} PlanMoves(jobs: map<Id, Job>, rows: seq<Id>, now: int)
    requires forall k :: 0 <= k < |rows| ==> rows[k] in jobs
    requires Distinct(rows)
    ensures PlansFor(jobs, rows, now, Plan(jobs, rows, now))
    decreases |rows|
  {
    if rows != [] {
      hide Restarts, Plan, PlansFor;
      var front, last := rows[..|rows| - 1], rows[|rows| - 1];
      PlanMoves(jobs, front, now);
      PlanStep(jobs, rows, now);
      assert rows == front + [last] && last !in front;
      if Restarts(jobs[last], now) {
        PlanGrows(jobs, front, last, now, Plan(jobs, front, now));
      } else {
        PlanSkips(jobs, front, last, now, Plan(jobs, front, now));
      }
    }
  }

  /** Of the listed jobs, those a restart moves along one edge. */
  ghost function Along(jobs: map<Id, Job>, rows: seq<Id>, now: int, e: Edge): set<Id>
    requires forall k :: 0 <= k < |rows| ==> rows[k] in jobs
  {
    set id | id in rows && Restarts(jobs[id], now) && (jobs[id].state, Ready) == e
  }

  lemma AlongGrows(jobs: map<Id, Job>, rows: seq<Id>, now: int, e: Edge)
    requires rows != [] && Distinct(rows) && forall k :: 0 <= k < |rows| ==> rows[k] in jobs
    ensures var front, last := rows[..|rows| - 1], rows[|rows| - 1];
            |Along(jobs, rows, now, e)|
            == |Along(jobs, front, now, e)| + if Restarts(jobs[last], now) && (jobs[last].state, Ready) == e then 1 else 0
  {
    hide Restarts;
    var front, last := rows[..|rows| - 1], rows[|rows| - 1];
    assert rows == front + [last] && last !in front;
    if Restarts(jobs[last], now) && (jobs[last].state, Ready) == e {
      assert Along(jobs, rows, now, e) == Along(jobs, front, now, e) + {last};
    } else {
      assert Along(jobs, rows, now, e) == Along(jobs, front, now, e);
    }
  }

  lemma CountGrows(moves: seq<Move>, m: Move, e: Edge)
    ensures CountEdge(moves + [m], e) == CountEdge(moves, e) + if (m.current, m.next) == e then 1 else 0
    ensures CountEdge(moves + [], e) == CountEdge(moves, e)
  {
    assert (moves + [m])[..|moves|] == moves && moves + [] == moves;
  }

  lemma {:induction false} CountMoves(jobs: map<Id, Job>, rows: seq<Id>, now: int, e: Edge)
    requires forall k :: 0 <= k < |rows| ==> rows[k] in jobs
    requires Distinct(rows)
    ensures CountEdge(Plan(jobs, rows, now), e) == |Along(jobs, rows, now, e)|
    decreases |rows|
  {
    if rows != [] {
      hide Restarts, Plan, CountEdge, Along;
      var front, last := rows[..|rows| - 1], rows[|rows| - 1];
      CountMoves(jobs, front, now, e);
      PlanStep(jobs, rows, now);
      AlongGrows(jobs, rows, now, e);
      CountGrows(Plan(jobs, front, now), Move(last, jobs[last].state, Ready), e);
    } else {
      assert Along(jobs, rows, now, e) == {};
    }
  }

  /** The states recovery reads its candidates from. */
  function Candidates(jobs: map<Id, Job>): (ids: set<Id>)
    ensures ids <= jobs.Keys
  {
    InState(jobs, Inferencing) + InState(jobs, Claimed) + InState(jobs, WaitingModel) + InState(jobs, RetryWait)
  }

  /** The jobs a restart moves along one edge. */
  ghost function Restarting(jobs: map<Id, Job>, now: int, e: Edge): set<Id> {
    set id | id in jobs && Restarts(jobs[id], now) && (jobs[id].state, Ready) == e
  }

  function MoveIds(moves: seq<Move>): (ids: seq<Id>)
    ensures |ids| == |moves| && forall k :: 0 <= k < |ids| ==> ids[k] == moves[k].id
  {
    seq(|moves|, k requires 0 <= k < |moves| => moves[k].id)
  }

  lemma CandidatesCover(jobs: map<Id, Job>, rows: seq<Id>, now: int)
    requires Distinct(rows) && (forall k :: 0 <= k < |rows| ==> rows[k] in jobs) && forall id :: id in rows <==> id in Candidates(jobs)
    ensures forall id :: id in jobs && Restarts(jobs[id], now) ==> id in rows
    ensures forall e :: CountEdge(Plan(jobs, rows, now), e) == |Restarting(jobs, now, e)|
  {
    hide Plan, CountEdge;
    forall e ensures CountEdge(Plan(jobs, rows, now), e) == |Restarting(jobs, now, e)| {
      CountMoves(jobs, rows, now, e);
      assert Along(jobs, rows, now, e) == Restarting(jobs, now, e);
    }
  }

  lemma MovesCover(jobs: map<Id, Job>, rows: seq<Id>, now: int, moves: seq<Move>)
    requires PlansFor(jobs, rows, now, moves) && forall id :: id in jobs && Restarts(jobs[id], now) ==> id in rows
    ensures Distinct(MoveIds(moves))
    ensures forall k :: 0 <= k < |moves| ==> moves[k].id in jobs && Restarts(jobs[moves[k].id], now)
    ensures forall id :: id in jobs ==> (id in MoveIds(moves) <==> Restarts(jobs[id], now))
  {
    hide Restarts;
    forall id | id in jobs ensures id in MoveIds(moves) <==> Restarts(jobs[id], now) {
      if Restarts(jobs[id], now) {
        var i :| 0 <= i < |moves| && moves[i].id == id;
        assert MoveIds(moves)[i] == id;
      }
    }
  }

  /** The plan over all candidates moves every job a restart moves, once, and counts them by edge. */
  lemma PlanIsComplete(jobs: map<Id, Job>, now: int)
    requires Keyed(jobs)
    ensures var rows := IdsOf(Ordered(Keys(jobs, Candidates(jobs))));
      && (forall k :: 0 <= k < |rows| ==> rows[k] in jobs)
      && var moves := Plan(jobs, rows, now);
      && Distinct(MoveIds(moves))
      && (forall k :: 0 <= k < |moves| ==> moves[k].id in jobs && Restarts(jobs[moves[k].id], now))
      && (forall id :: id in jobs ==> (id in MoveIds(moves) <==> Restarts(jobs[id], now)))
      && (forall e :: CountEdge(moves, e) == |Restarting(jobs, now, e)|)
  {
    hide Plan, PlansFor, CountEdge, Candidates, Restarting, Restarts;
    SelectedIds(jobs, Candidates(jobs));
    var rows := IdsOf(Ordered(Keys(jobs, Candidates(jobs))));
    PlanMoves(jobs, rows, now);
    CandidatesCover(jobs, rows, now);
    MovesCover(jobs, rows, now, Plan(jobs, rows, now));
  }
}
