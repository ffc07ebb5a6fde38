// The scheduler: an inbox, one lane per model generation, retry timers, and at most one job in
// flight per cell. Other ledger users act between any two of its ledger calls.

module Scheduling {
  import opened Wrappers
  import opened Lifecycle
  import opened Ordering
  import opened LedgerSpec
  import opened LedgerStore
  import opened Queues
  import R = Residency
  import C = CellMain
  import X = Executors

  type Edge = (JobState, JobState)

  /** The ledger edges the scheduler owns: the way to a session, and the failures along it. */
  predicate OwnEdge(e: Edge) {
    e in {(Ready, Claimed), (Claimed, WaitingModel), (WaitingModel, Inferencing), (RetryWait, Ready),
          (WaitingModel, RetryWait), (Inferencing, RetryWait), (WaitingModel, BlockedConfiguration),
          (Inferencing, ProcessingExhausted), (Inferencing, Inferencing)}
  }

  ghost predicate OnlyOwn(edges: set<Edge>) {
    forall e :: e in edges ==> OwnEdge(e)
  }

  /** No entry leaves without a reason: it is dropped only if the ledger refused it an edge, and handed on only
      if its inference succeeded or its job came to a verdict. */
  ghost predicate Accounted(entries: map<Ticket, Queued>, refused: multiset<Ticket>, delivered: multiset<Ticket>,
                            denied: set<Ticket>, answered: set<Ticket>)
  {
    && (forall t :: t in refused ==> t in denied)
    && (forall t :: t in delivered ==> Settled(entries, answered, t))
  }

  predicate Settled(entries: map<Ticket, Queued>, answered: set<Ticket>, t: Ticket) {
    t in entries && (t in answered || entries[t].job.state in {ProcessingExhausted, BlockedConfiguration})
  }

  lemma DropIsAccounted(entries: map<Ticket, Queued>, refused: multiset<Ticket>, delivered: multiset<Ticket>,
                        denied: set<Ticket>, answered: set<Ticket>, t: Ticket)
    requires Accounted(entries, refused, delivered, denied, answered) && t in denied
    ensures Accounted(entries, refused + multiset{t}, delivered, denied, answered)
  {
  }

  /** Entries keep their jobs, and new ones may come. */
  lemma StillAccounted(entries: map<Ticket, Queued>, more: map<Ticket, Queued>, refused: multiset<Ticket>, delivered: multiset<Ticket>,
                       denied: set<Ticket>, answered: set<Ticket>)
    requires Accounted(entries, refused, delivered, denied, answered)
    requires forall t :: t in entries ==> t in more && more[t].job == entries[t].job
    ensures Accounted(more, refused, delivered, denied, answered)
  {
  }

  lemma OwnEdgesAreLegal(e: Edge)
    requires OwnEdge(e)
    ensures e.0 == e.1 || IsLegal(e.0, e.1)
  {
  }

  /** Durable attempt counts are what they were. */
  ghost predicate AttemptsKept(before: map<Id, Job>, after: map<Id, Job>) {
    forall id :: id in before ==> id in after && after[id].attempts == before[id].attempts
  }

  /** The same, but for one job, whose count went up by one. */
  ghost predicate AttemptSpent(before: map<Id, Job>, after: map<Id, Job>, spender: Id) {
    && spender in before
    && forall id :: id in before ==> id in after && after[id].attempts == before[id].attempts + if id == spender then 1 else 0
  }

  /** A count stored for one job, seen as attempts kept or spent. */
  ghost predicate CountMoved(before: map<Id, Job>, after: map<Id, Job>, was: Job, count: int) {
    && (count == was.attempts ==> AttemptsKept(before, after))
    && (count == was.attempts + 1 ==> AttemptSpent(before, after, was.id))
  }

  ghost predicate AttemptsNeverFall(before: map<Id, Job>, after: map<Id, Job>) {
    forall id :: id in before ==> id in after && after[id].attempts >= before[id].attempts
  }

  /** The same for every job but one. */
  ghost predicate AttemptsElsewhere(before: map<Id, Job>, after: map<Id, Job>, id: Id) {
    forall other :: other in before ==> other in after && (other != id ==> after[other].attempts == before[other].attempts)
  }

  predicate SameJob(a: Job, b: Job) {
    a.id == b.id && a.digest == b.digest
  }

  /** Only one lane's queue and bookkeeping differ. */
  ghost predicate OneLane(before: seq<Lane>, after: seq<Lane>, k: nat) {
    && k < |before| && |after| == |before| && after[k].digest == before[k].digest
    && forall j :: 0 <= j < |before| && j != k ==> after[j] == before[j]
  }

  /** Every entry is still for the job it was submitted for. */
  ghost predicate SameJobs(before: map<Ticket, Queued>, after: map<Ticket, Queued>) {
    forall t :: t in before ==> t in after && SameJob(before[t].job, after[t].job)
  }

  ghost predicate SameDigests(before: seq<Lane>, after: seq<Lane>) {
    |before| == |after| && forall k :: 0 <= k < |before| ==> after[k].digest == before[k].digest
  }

  /** Only one entry's copy of its job differs, and it is still the same job. */
  ghost predicate OneEntry(before: map<Ticket, Queued>, after: map<Ticket, Queued>, t: Ticket) {
    && t in before && after.Keys == before.Keys
    && SameJob(before[t].job, after[t].job)
    && forall u :: u in before && u != t ==> after[u] == before[u]
  }

  // What one step changed, seen more coarsely, and what two steps changed together.

  lemma OneEntryIsSameJobs(before: map<Ticket, Queued>, after: map<Ticket, Queued>, t: Ticket)
    requires OneEntry(before, after, t)
    ensures SameJobs(before, after)
  {
  }

  lemma OneEntryHas(before: map<Ticket, Queued>, after: map<Ticket, Queued>, t: Ticket)
    requires OneEntry(before, after, t)
    ensures t in after
  {
  }

  lemma SameJobsCompose(a: map<Ticket, Queued>, b: map<Ticket, Queued>, c: map<Ticket, Queued>)
    requires SameJobs(a, b) && SameJobs(b, c)
    ensures SameJobs(a, c)
  {
  }

  lemma LaneKept(a: seq<Lane>, b: seq<Lane>, k: nat)
    requires OneLane(a, b, k)
    ensures k < |a| == |b| && b[k].digest == a[k].digest
  {
  }

  lemma OneLaneComposes(a: seq<Lane>, b: seq<Lane>, c: seq<Lane>, k: nat)
    requires OneLane(a, b, k) && OneLane(b, c, k)
    ensures OneLane(a, c, k)
  {
  }

  /** One entry or none, one lane or none. */
  lemma Coarsen(e: map<Ticket, Queued>, f: map<Ticket, Queued>, a: seq<Lane>, b: seq<Lane>, t: Ticket, k: nat)
    requires (e == f || OneEntry(e, f, t)) && (a == b || OneLane(a, b, k))
    ensures SameJobs(e, f) && SameDigests(a, b)
  {
  }

  lemma SameTicket(e: map<Ticket, Queued>, f: map<Ticket, Queued>, a: seq<Lane>, b: seq<Lane>, k: nat, t: Ticket)
    requires SameJobs(e, f) && OneLane(a, b, k) && t in e && e[t].job.digest == a[k].digest
    ensures t in f && f[t].job.digest == b[k].digest
  {
  }

  lemma KeptComposes(a: map<Id, Job>, b: map<Id, Job>, c: map<Id, Job>)
    requires AttemptsKept(b, c)
    ensures AttemptsKept(a, b) ==> AttemptsKept(a, c)
    ensures forall id :: AttemptSpent(a, b, id) ==> AttemptSpent(a, c, id)
  {
  }

  lemma NeverFalls(a: map<Id, Job>, b: map<Id, Job>, id: Id)
    requires AttemptsKept(a, b) || AttemptSpent(a, b, id)
    ensures AttemptsNeverFall(a, b)
  {
  }

  lemma Unchanged(entries: map<Ticket, Queued>, lanes: seq<Lane>, jobs: map<Id, Job>)
    ensures SameJobs(entries, entries) && SameDigests(lanes, lanes) && AttemptsKept(jobs, jobs)
    ensures forall k :: 0 <= k < |lanes| ==> OneLane(lanes, lanes, k)
  {
  }

  /** One row rewritten after a time in which attempts were kept. */
  lemma JobRewritten(before: map<Id, Job>, meanwhile: map<Id, Job>, after: map<Id, Job>, id: Id)
    requires AttemptsKept(before, meanwhile) && (after == meanwhile || (id in after && after == meanwhile[id := after[id]]))
    ensures AttemptsElsewhere(before, after, id)
    ensures after == meanwhile || (id in meanwhile && after[id].attempts == meanwhile[id].attempts) ==> AttemptsKept(before, after)
  {
  }

  lemma ReplacedOne(entries: map<Ticket, Queued>, t: Ticket, job: Job)
    requires t in entries && SameJob(entries[t].job, job)
    ensures OneEntry(entries, entries[t := entries[t].(job := job)], t)
  {
  }

  lemma NothingReplaced(entries: map<Ticket, Queued>, jobs: map<Id, Job>, t: Ticket)
    requires t in entries
    ensures OneEntry(entries, entries, t) && AttemptsKept(jobs, jobs)
  {
  }

  lemma OneEntryComposes(a: map<Ticket, Queued>, b: map<Ticket, Queued>, c: map<Ticket, Queued>, t: Ticket)
    requires OneEntry(a, b, t) && OneEntry(b, c, t)
    ensures OneEntry(a, c, t)
  {
  }

  lemma SameCount(before: map<Id, Job>, after: map<Id, Job>, was: Job)
    requires CountMoved(before, after, was, was.attempts)
    ensures AttemptsKept(before, after)
  {
  }

  lemma CountStored(before: map<Id, Job>, after: map<Id, Job>, was: Job, count: int)
    requires AttemptsElsewhere(before, after, was.id) && was.id in before && before[was.id].attempts == was.attempts
    requires was.id in after && after[was.id].attempts == count
    ensures CountMoved(before, after, was, count)
  {
  }

  /** What making a model resident came to for the head job of a lane. */
  datatype Outcome = Resident | Deferred | Gone | Lost

  /** What the bundle cache says about a digest. */
  datatype Bundle = Unreadable(error: string) | NotStaged | Staged(estimate: int)

  /** The best priority among these entries, 0 when there are none. */
  function Highest(jobs: seq<Ticket>, entries: map<Ticket, Queued>): int {
    if jobs == [] then 0
    else
      var own := if jobs[0] in entries then entries[jobs[0]].priority else 0;
      if |jobs| == 1 then own else R.Max(own, Highest(jobs[1..], entries))
  }

  /** No waiting entry has a better priority, and one of them has that one. */
  lemma {:induction false} HighestIsBest(jobs: seq<Ticket>, entries: map<Ticket, Queued>)
    requires jobs != [] && forall t :: t in jobs ==> t in entries
    ensures forall t :: t in jobs ==> entries[t].priority <= Highest(jobs, entries)
    ensures exists t :: t in jobs && entries[t].priority == Highest(jobs, entries)
    decreases |jobs|
  {
    if |jobs| == 1 {
      assert jobs[0] in jobs;
    } else {
      var rest := jobs[1..];
      HighestIsBest(rest, entries);
      assert jobs == [jobs[0]] + rest;
      var t :| t in rest && entries[t].priority == Highest(rest, entries);
      assert jobs[0] in jobs && t in jobs;
    }
  }

  function Demand(lane: Lane, entries: map<Ticket, Queued>): X.Waiting {
    X.Waiting(|lane.jobs|, Highest(lane.jobs, entries), lane.burst > 0)
  }

  function Backlog(lanes: seq<Lane>, entries: map<Ticket, Queued>): map<string, X.Waiting> {
    if lanes == [] then map[]
    else
      var last := lanes[|lanes| - 1];
      Backlog(lanes[..|lanes| - 1], entries)[last.digest := Demand(last, entries)]
  }

  /** Models loaded for a burst they have not drained yet. */
  function Leases(lanes: seq<Lane>): set<string> {
    set k | 0 <= k < |lanes| && lanes[k].burst > 0 :: lanes[k].digest
  }

  /** What stands behind a model: the depth of its lane, the best priority in it, and whether its burst is over. */
  lemma {:induction false} BacklogOf(lanes: seq<Lane>, entries: map<Ticket, Queued>, k: nat)
    requires k < |lanes| && forall i, j :: 0 <= i < j < |lanes| ==> lanes[i].digest != lanes[j].digest
    ensures lanes[k].digest in Backlog(lanes, entries)
    ensures Backlog(lanes, entries)[lanes[k].digest] == X.Waiting(|lanes[k].jobs|, Highest(lanes[k].jobs, entries), lanes[k].digest in Leases(lanes))
    ensures lanes[k].digest in Leases(lanes) <==> lanes[k].burst > 0
    decreases |lanes|
  {
    hide Highest;
    var front := lanes[..|lanes| - 1];
    if k < |front| {
      BacklogOf(front, entries, k);
      assert lanes[k].digest != lanes[|front|].digest;
    }
  }

  // -- which lane goes next ----------------------------------------------------------------------

  /** How long ago the head of a lane was first submitted, weighted by the best priority in the lane. */
  function Urgency(lane: Lane, entries: map<Ticket, Queued>, now: int): int
    requires lane.jobs != [] && lane.jobs[0] in entries
  {
    var age := now - entries[lane.jobs[0]].firstSeen;
    (if age > 0 then age else 0) * (if Highest(lane.jobs, entries) > 1 then Highest(lane.jobs, entries) else 1)
  }

  /** Among lanes that are all preferred, or all not, the more urgent comes first, and of equally urgent ones
      the one with the smaller digest. */
  lemma UrgentFirst(order: seq<nat>, lanes: seq<Lane>, entries: map<Ticket, Queued>, held: set<string>, now: int, hotTtl: real, i: nat, j: nat)
    requires InTurn(order, lanes, entries, held, now, hotTtl) && i < j < |order|
    requires lanes[order[i]].jobs[0] in entries && lanes[order[j]].jobs[0] in entries
    requires Preferred(lanes[order[i]], entries, held, now, hotTtl) == Preferred(lanes[order[j]], entries, held, now, hotTtl)
    ensures var first, second := Urgency(lanes[order[i]], entries, now), Urgency(lanes[order[j]], entries, now);
            first >= second
            && (first == second && lanes[order[i]].digest != lanes[order[j]].digest ==> TextLess(lanes[order[i]].digest, lanes[order[j]].digest))
  {
    hide Highest, TextLess;
    assert LaneLess(Weigh(lanes, order[i], entries, held, now, hotTtl), Weigh(lanes, order[j], entries, held, now, hotTtl));
    WeighsUrgency(lanes, order[i], entries, held, now, hotTtl);
    WeighsUrgency(lanes, order[j], entries, held, now, hotTtl);
  }

  lemma WeighsUrgency(lanes: seq<Lane>, k: nat, entries: map<Ticket, Queued>, held: set<string>, now: int, hotTtl: real)
    requires k < |lanes| && lanes[k].jobs != [] && lanes[k].jobs[0] in entries
    ensures Weigh(lanes, k, entries, held, now, hotTtl).1 == -Urgency(lanes[k], entries, now)
  {
  }

  /** How long the head of a lane has been known, however often it was retried. */
  function Oldest(lane: Lane, entries: map<Ticket, Queued>, now: int): int {
    if lane.jobs == [] || lane.jobs[0] !in entries then 0 else R.Max(now - entries[lane.jobs[0]].firstSeen, 0)
  }

  /** Resident here, or waiting so long that residency no longer matters. */
  predicate Preferred(lane: Lane, entries: map<Ticket, Queued>, held: set<string>, now: int, hotTtl: real) {
    lane.digest in held || Oldest(lane, entries, now) as real >= hotTtl * 1000.0
  }

  /** (tier, age weighted by priority with the largest first, digest), and the lane it ranks. */
  type LaneRank = (int, int, string, nat)

  function Weigh(lanes: seq<Lane>, k: nat, entries: map<Ticket, Queued>, held: set<string>, now: int, hotTtl: real): LaneRank
    requires k < |lanes|
  {
    (if Preferred(lanes[k], entries, held, now, hotTtl) then 0 else 1,
     -(Oldest(lanes[k], entries, now) * R.Max(Highest(lanes[k].jobs, entries), 1)), lanes[k].digest, k)
  }

  predicate LaneLess(a: LaneRank, b: LaneRank) {
    a.0 < b.0 || (a.0 == b.0 && (a.1 < b.1 || (a.1 == b.1 && (TextLess(a.2, b.2) || (a.2 == b.2 && a.3 < b.3)))))
  }

  lemma LaneRanksAreTotal()
    ensures StrictTotal(LaneLess)
  {
    TextIsTotal();
  }

  /** The lanes with work, in the order one cell should try them. */
  ghost predicate InTurn(order: seq<nat>, lanes: seq<Lane>, entries: map<Ticket, Queued>, held: set<string>, now: int, hotTtl: real) {
    && (forall i :: 0 <= i < |order| ==> order[i] < |lanes| && lanes[order[i]].jobs != [])
    && (forall k :: 0 <= k < |lanes| && lanes[k].jobs != [] ==> k in order)
    && (forall i, j :: 0 <= i < j < |order| ==>
          LaneLess(Weigh(lanes, order[i], entries, held, now, hotTtl), Weigh(lanes, order[j], entries, held, now, hotTtl)))
  }

  /** No lane is tried before a preferred one unless it is preferred itself, and none is tried twice. */
  lemma PreferredFirst(order: seq<nat>, lanes: seq<Lane>, entries: map<Ticket, Queued>, held: set<string>, now: int, hotTtl: real)
    requires InTurn(order, lanes, entries, held, now, hotTtl)
    ensures forall i, j :: 0 <= i < j < |order| ==> order[i] != order[j]
    ensures forall i, j :: 0 <= i < j < |order| && Preferred(lanes[order[j]], entries, held, now, hotTtl) ==>
              Preferred(lanes[order[i]], entries, held, now, hotTtl)
    ensures forall i :: 0 <= i < |order| && lanes[order[i]].jobs[0] in entries ==>
              (Preferred(lanes[order[i]], entries, held, now, hotTtl)
               <==> lanes[order[i]].digest in held || hotTtl <= 0.0
                    || (now - entries[lanes[order[i]].jobs[0]].firstSeen) as real / 1000.0 >= hotTtl)
  {
    LaneRanksAreTotal();
    forall i, j | 0 <= i < j < |order|
      ensures order[i] != order[j]
      ensures Preferred(lanes[order[j]], entries, held, now, hotTtl) ==> Preferred(lanes[order[i]], entries, held, now, hotTtl)
    {
      assert LaneLess(Weigh(lanes, order[i], entries, held, now, hotTtl), Weigh(lanes, order[j], entries, held, now, hotTtl));
    }
  }

  /** What trying one lane came to: try the next one, give up on this cell, or a job was sent. */
  datatype Step = NextLane | GiveUp | Dispatched

  /** A dispatched job left the head of its lane for the cell, which runs it; a lost cell leaves it there. */
  ghost predicate Served(step: Step, c: X.CellId, k: nat, before: seq<Lane>, after: seq<Lane>, busy: map<X.CellId, string>) {
    && k < |before| && before[k].jobs != []
    && (step == Dispatched ==> k < |after| && after[k].jobs == before[k].jobs[1..] && c in busy && busy[c] == after[k].digest)
    && (step == GiveUp ==> k < |after| && after[k].jobs == before[k].jobs)
  }

  lemma NotServed(c: X.CellId, k: nat, before: seq<Lane>, after: seq<Lane>, busy: map<X.CellId, string>)
    requires OneLane(before, after, k) && before[k].jobs != []
    ensures Served(NextLane, c, k, before, after, busy)
    ensures after[k].jobs == before[k].jobs ==> Served(GiveUp, c, k, before, after, busy)
  {
  }

  lemma ServedSince(step: Step, c: X.CellId, k: nat, a: seq<Lane>, b: seq<Lane>, after: seq<Lane>, busy: map<X.CellId, string>)
    requires Served(step, c, k, b, after, busy) && k < |a| && a[k].jobs == b[k].jobs
    ensures Served(step, c, k, a, after, busy)
  {
  }

  /** One dispatched job: the cell running it, the lane it came from, and its entry. */
  datatype Sent = Sent(cell: X.CellId, lane: nat, ticket: Ticket)

  /** A job that headed its lane in one of these turns; the lanes that come later were left alone. */
  ghost predicate WasNext(p: Sent, order: seq<nat>, before: seq<Lane>, after: seq<Lane>) {
    exists i :: 0 <= i < |order| && order[i] == p.lane
      && p.lane < |before| && before[p.lane].jobs != [] && before[p.lane].jobs[0] == p.ticket
      && forall j :: i < j < |order| && order[j] < |before| && order[j] < |after| ==> after[order[j]] == before[order[j]]
  }

  ghost function TicketsOf(pending: seq<Sent>): multiset<Ticket> {
    if pending == [] then multiset{} else multiset{pending[0].ticket} + TicketsOf(pending[1..])
  }

  ghost function CellsOf(pending: seq<Sent>): set<X.CellId> {
    set p | p in pending :: p.cell
  }

  lemma {:induction false} OneMoreSent(pending: seq<Sent>, p: Sent)
    ensures TicketsOf(pending + [p]) == TicketsOf(pending) + multiset{p.ticket}
    ensures CellsOf(pending + [p]) == CellsOf(pending) + {p.cell}
    decreases |pending|
  {
    if pending == [] {
      assert [p][1..] == [];
    } else {
      OneMoreSent(pending[1..], p);
      assert (pending + [p])[1..] == pending[1..] + [p];
      assert CellsOf(pending + [p]) == CellsOf(pending) + {p.cell};
    }
  }

  /** A job a pass sent and has not collected. */
  ghost predicate Awaited(v: Places, busy: set<X.CellId>, p: Sent) {
    && p.ticket in v.flying && p.cell in busy
    && p.lane < |v.lanes| && p.ticket in v.entries && v.lanes[p.lane].digest == v.entries[p.ticket].job.digest
  }

  /** These are all the jobs in flight, on as many cells. */
  ghost predicate AllAwaited(v: Places, busy: set<X.CellId>, pending: seq<Sent>) {
    && v.flying == TicketsOf(pending) && busy == CellsOf(pending)
    && (forall p :: p in pending ==> Awaited(v, busy, p))
    && (forall i, j :: 0 <= i < j < |pending| ==> pending[i].cell != pending[j].cell)
  }

  lemma BusyCells(v: Places, busy: set<X.CellId>, pending: seq<Sent>)
    requires AllAwaited(v, busy, pending)
    ensures busy == CellsOf(pending)
  {
  }

  lemma NothingAwaited(v: Places)
    ensures AllAwaited(v, {}, []) <==> v.flying == multiset{}
  {
  }

  lemma StillAwaited(v: Places, w: Places, busy: set<X.CellId>, pending: seq<Sent>)
    requires AllAwaited(v, busy, pending) && w.flying == v.flying
    requires SameDigests(v.lanes, w.lanes) && SameJobs(v.entries, w.entries)
    ensures AllAwaited(w, busy, pending)
  {
  }

  lemma OneMoreAwaited(v: Places, w: Places, busy: set<X.CellId>, pending: seq<Sent>, p: Sent)
    requires AllAwaited(v, busy, pending) && w.flying == v.flying + multiset{p.ticket} && p.cell !in busy
    requires SameDigests(v.lanes, w.lanes) && SameJobs(v.entries, w.entries) && Awaited(w, busy + {p.cell}, p)
    ensures AllAwaited(w, busy + {p.cell}, pending + [p])
  {
    OneMoreSent(pending, p);
    forall q | q in pending + [p] ensures Awaited(w, busy + {p.cell}, q) {
      assert q in pending || q == p;
    }
    forall i | 0 <= i < |pending| ensures pending[i].cell != p.cell {
      assert Awaited(v, busy, pending[i]);
    }
  }

  lemma OneFewerAwaited(v: Places, w: Places, busy: set<X.CellId>, pending: seq<Sent>)
    requires AllAwaited(v, busy, pending) && pending != []
    requires w.flying == v.flying - multiset{pending[0].ticket}
    requires SameDigests(v.lanes, w.lanes) && SameJobs(v.entries, w.entries)
    ensures AllAwaited(w, busy - {pending[0].cell}, pending[1..])
  {
    var first, rest := pending[0], pending[1..];
    assert pending == [first] + rest;
    assert w.flying == TicketsOf(rest);
    forall p | p in rest ensures Awaited(w, busy - {first.cell}, p) {
      var i :| 0 <= i < |rest| && rest[i] == p;
      assert pending[i + 1] == p && Awaited(v, busy, p);
      TicketListed(rest, i);
    }
    FirstCellLeaves(pending);
  }

  lemma FirstCellLeaves(pending: seq<Sent>)
    requires pending != [] && forall i, j :: 0 <= i < j < |pending| ==> pending[i].cell != pending[j].cell
    ensures CellsOf(pending[1..]) == CellsOf(pending) - {pending[0].cell}
  {
    assert pending == [pending[0]] + pending[1..];
  }

  lemma {:induction false} TicketListed(pending: seq<Sent>, i: nat)
    requires i < |pending|
    ensures pending[i].ticket in TicketsOf(pending)
    decreases i
  {
    if i > 0 { TicketListed(pending[1..], i - 1); }
  }

  /** Whoever holds these models can run this lane at once: its head is past its claim. */
  predicate Runnable(lanes: seq<Lane>, entries: map<Ticket, Queued>, held: set<string>, k: nat) {
    && k < |lanes| && lanes[k].jobs != [] && lanes[k].digest in held
    && lanes[k].jobs[0] in entries && Held(entries[lanes[k].jobs[0]].job.state)
  }

  /** There is work, and it can run whatever lane it is offered first. */
  ghost predicate AllRunnable(lanes: seq<Lane>, entries: map<Ticket, Queued>, held: set<string>) {
    && (exists k :: 0 <= k < |lanes| && lanes[k].jobs != [])
    && (forall k :: 0 <= k < |lanes| && lanes[k].jobs != [] ==> Runnable(lanes, entries, held, k))
  }

  lemma FirstIsRunnable(order: seq<nat>, lanes: seq<Lane>, entries: map<Ticket, Queued>, held: set<string>, now: int, hotTtl: real)
    requires AllRunnable(lanes, entries, held) && InTurn(order, lanes, entries, held, now, hotTtl)
    ensures order != [] && Runnable(lanes, entries, held, order[0])
  {
    var k :| 0 <= k < |lanes| && lanes[k].jobs != [];
    assert k in order;
  }

  // -- what becomes of a dispatched job ----------------------------------------------------------

  /** The job reached its end and was handed on; nothing else moved. */
  ghost predicate HandedOn(t: Ticket, before: Places, after: Places) {
    after.delivered == before.delivered + multiset{t} && after.lanes == before.lanes && after.retry == before.retry
  }

  predicate OneMoreTimer(before: seq<(int, Ticket)>, after: seq<(int, Ticket)>, t: Ticket) {
    |after| == |before| + 1 && after[..|before|] == before && after[|before|].1 == t
  }

  /** The job waits on a new timer; nothing else moved. */
  ghost predicate PutOnTimer(t: Ticket, before: Places, after: Places) {
    && OneMoreTimer(before.retry, after.retry, t) && after.delivered == before.delivered && after.lanes == before.lanes
  }

  /** The job is at the front of its lane again; nothing else moved. */
  ghost predicate PutInFront(t: Ticket, k: nat, before: Places, after: Places) {
    && OneLane(before.lanes, after.lanes, k) && after.lanes[k].jobs == [t] + before.lanes[k].jobs
    && after.delivered == before.delivered && after.retry == before.retry
  }

  predicate Transiently(r: X.Collected) {
    r.Got? && r.answer.Failed? && r.answer.kind == C.Transient
  }

  /** What one reply makes of a job in flight: success and permanent failure end it, a transient failure
      costs an attempt and ends it with the last, and anything else puts it back as it was. */
  ghost predicate Fate(t: Ticket, k: nat, r: X.Collected, before: Places, after: Places, max: int) {
    && OneEntry(before.entries, after.entries, t) && after.refused == before.refused
    && var was, now := before.entries[t].job, after.entries[t].job;
       && now.attempts == was.attempts + (if Transiently(r) then 1 else 0)
       && match r
          case Lost => PutInFront(t, k, before, after) && now.state == Inferencing
          case Odd => PutInFront(t, k, before, after) && now.state == Inferencing
          case Got(answer, _) =>
            match answer
            case Succeeded => HandedOn(t, before, after) && now == was
            case Failed(_, kind) =>
              match kind
              case Contaminating => PutInFront(t, k, before, after) && now.state == Inferencing
              case Permanent => HandedOn(t, before, after) && now.state == ProcessingExhausted
              case Transient =>
                if was.attempts + 1 < max then PutOnTimer(t, before, after) && now.state == RetryWait
                else HandedOn(t, before, after) && now.state == ProcessingExhausted
  }

  lemma FateBack(t: Ticket, k: nat, r: X.Collected, before: Places, after: Places, max: int)
    requires r.Lost? || r.Odd? || (r.answer.Failed? && r.answer.kind == C.Contaminating)
    requires OneEntry(before.entries, after.entries, t) && after.refused == before.refused
    requires after.entries[t].job.attempts == before.entries[t].job.attempts && after.entries[t].job.state == Inferencing
    requires PutInFront(t, k, before, after)
    ensures Fate(t, k, r, before, after, max)
  {
  }

  lemma Handed(t: Ticket, before: Places, after: Places)
    requires after == Delivered(before, t)
    ensures HandedOn(t, before, after)
  {
  }

  lemma FateSuccess(t: Ticket, k: nat, r: X.Collected, before: Places, after: Places, max: int)
    requires r.Got? && r.answer.Succeeded? && t in before.entries
    requires after.entries == before.entries && after.refused == before.refused && HandedOn(t, before, after)
    ensures Fate(t, k, r, before, after, max)
  {
  }

  lemma FateVerdict(t: Ticket, k: nat, r: X.Collected, before: Places, after: Places, max: int)
    requires r.Got? && r.answer.Failed? && r.answer.kind != C.Contaminating
    requires OneEntry(before.entries, after.entries, t) && after.refused == before.refused && HandedOn(t, before, after)
    requires after.entries[t].job.state == ProcessingExhausted
    requires after.entries[t].job.attempts == before.entries[t].job.attempts + (if Transiently(r) then 1 else 0)
    requires Transiently(r) ==> before.entries[t].job.attempts + 1 >= max
    ensures Fate(t, k, r, before, after, max)
  {
  }

  lemma TimerSince(t: Ticket, before: Places, middle: Places, after: Places)
    requires PutOnTimer(t, middle, after)
    requires middle.retry == before.retry && middle.delivered == before.delivered && middle.lanes == before.lanes
    ensures PutOnTimer(t, before, after)
  {
  }

  lemma FateTimer(t: Ticket, k: nat, r: X.Collected, before: Places, after: Places, max: int)
    requires Transiently(r) && OneEntry(before.entries, after.entries, t) && after.refused == before.refused
    requires PutOnTimer(t, before, after) && after.entries[t].job.state == RetryWait
    requires after.entries[t].job.attempts == before.entries[t].job.attempts + 1 < max
    ensures Fate(t, k, r, before, after, max)
  {
  }

  /** Landing itself decides nothing. */
  lemma FateOfLanded(t: Ticket, k: nat, r: X.Collected, before: Places, after: Places, max: int)
    requires Fate(t, k, r, Landed(before, t), after, max)
    ensures Fate(t, k, r, before, after, max)
  {
  }

  /** Exactly these jobs spent one attempt each. */
  ghost predicate SpentBy(before: map<Id, Job>, after: map<Id, Job>, spenders: set<Id>) {
    forall id :: id in before ==> id in after && after[id].attempts == before[id].attempts + if id in spenders then 1 else 0
  }

  /** Which cell each reply came from. */
  function Heard(pending: seq<Sent>, replies: seq<X.Collected>): (heard: seq<(X.CellId, X.Collected)>)
    requires |replies| <= |pending|
    ensures |heard| == |replies| && forall i :: 0 <= i < |heard| ==> heard[i] == (pending[i].cell, replies[i])
  {
    seq(|replies|, i requires 0 <= i < |replies| => (pending[i].cell, replies[i]))
  }

  lemma NoneHeard(pending: seq<Sent>)
    ensures Heard(pending, []) == []
  {
  }

  lemma OneMoreHeard(pending: seq<Sent>, replies: seq<X.Collected>, r: X.Collected)
    requires |replies| < |pending|
    ensures Heard(pending, replies + [r]) == Heard(pending, replies) + [(pending[|replies|].cell, r)]
  {
  }

  function Spender(r: X.Collected, id: Id): set<Id> {
    if Transiently(r) then {id} else {}
  }

  lemma SpendersCompose(a: map<Id, Job>, b: map<Id, Job>, c: map<Id, Job>, first: set<Id>, second: set<Id>)
    requires SpentBy(a, b, first) && SpentBy(b, c, second) && first !! second
    ensures SpentBy(a, c, first + second)
  {
  }

  lemma KeptThenSpent(a: map<Id, Job>, b: map<Id, Job>, c: map<Id, Job>, spenders: set<Id>)
    requires AttemptsKept(a, b) && SpentBy(b, c, spenders)
    ensures SpentBy(a, c, spenders)
  {
  }

  lemma SpentNeverFalls(a: map<Id, Job>, b: map<Id, Job>, spenders: set<Id>)
    requires SpentBy(a, b, spenders)
    ensures AttemptsNeverFall(a, b)
  {
  }

  lemma OneSpender(a: map<Id, Job>, b: map<Id, Job>, r: X.Collected, id: Id)
    requires if Transiently(r) then AttemptSpent(a, b, id) else AttemptsKept(a, b)
    ensures SpentBy(a, b, Spender(r, id))
  {
  }

  predicate EndsIn(jobs: seq<Ticket>, t: Ticket) {
    jobs != [] && jobs[|jobs| - 1] == t
  }

  predicate EndsWith(jobs: seq<Ticket>, tail: seq<Ticket>) {
    |tail| <= |jobs| && jobs[|jobs| - |tail|..] == tail
  }

  /** Collecting only adds: deliveries, timers, and jobs in front of those that wait in a lane. */
  ghost predicate Grown(a: Places, b: Places) {
    && a.delivered <= b.delivered && a.retry <= b.retry && |a.lanes| == |b.lanes|
    && forall k :: 0 <= k < |a.lanes| ==> EndsWith(b.lanes[k].jobs, a.lanes[k].jobs)
  }

  predicate OnTimer(retry: seq<(int, Ticket)>, t: Ticket) {
    exists i :: 0 <= i < |retry| && retry[i].1 == t
  }

  /** The job is ahead of all those that waited. */
  predicate AheadOf(t: Ticket, jobs: seq<Ticket>, waited: seq<Ticket>) {
    EndsWith(jobs, waited) && t in jobs[..|jobs| - |waited|]
  }

  /** Where a dispatched job is once all replies of the pass are in, by the reply it got. */
  ghost predicate Ended(p: Sent, r: X.Collected, start: Places, end: Places, max: int) {
    p.ticket in start.entries && p.ticket in end.entries && p.lane < |start.lanes| == |end.lanes| &&
    var t, was, now := p.ticket, start.entries[p.ticket].job, end.entries[p.ticket].job;
    var back := now.state == Inferencing && AheadOf(t, end.lanes[p.lane].jobs, start.lanes[p.lane].jobs);
    && SameJob(was, now) && now.attempts == was.attempts + (if Transiently(r) then 1 else 0)
    && match r
       case Lost => back
       case Odd => back
       case Got(answer, _) =>
         match answer
         case Succeeded => t in end.delivered && now == was
         case Failed(_, kind) =>
           match kind
           case Contaminating => back
           case Permanent => t in end.delivered && now.state == ProcessingExhausted
           case Transient =>
             if was.attempts + 1 < max then OnTimer(end.retry, t) && now.state == RetryWait
             else t in end.delivered && now.state == ProcessingExhausted
  }

  lemma FateGrows(t: Ticket, k: nat, r: X.Collected, a: Places, b: Places, max: int)
    requires Fate(t, k, r, a, b, max)
    ensures Grown(a, b) && OneEntry(a.entries, b.entries, t)
  {
  }

  lemma EndsWithTransitive(a: seq<Ticket>, b: seq<Ticket>, c: seq<Ticket>)
    requires EndsWith(b, a) && EndsWith(c, b)
    ensures EndsWith(c, a)
    ensures forall t :: AheadOf(t, b, a) ==> AheadOf(t, c, a)
  {
    var front := |c| - |b|;
    assert forall i :: 0 <= i < |b| ==> c[front + i] == c[front..][i] == b[i];
    forall t | AheadOf(t, b, a) ensures AheadOf(t, c, a) {
      var i :| 0 <= i < |b| - |a| && b[i] == t;
      assert c[front + i] == t && front + i < |c| - |a|;
    }
  }

  lemma GrownTransitive(a: Places, b: Places, c: Places)
    requires Grown(a, b) && Grown(b, c)
    ensures Grown(a, c)
  {
    forall k | 0 <= k < |a.lanes| ensures EndsWith(c.lanes[k].jobs, a.lanes[k].jobs) {
      EndsWithTransitive(a.lanes[k].jobs, b.lanes[k].jobs, c.lanes[k].jobs);
    }
  }

  lemma PutAhead(t: Ticket, k: nat, start: Places, middle: Places, end: Places)
    requires PutInFront(t, k, middle, end) && Grown(start, middle) && k < |start.lanes|
    ensures |end.lanes| == |start.lanes| && AheadOf(t, end.lanes[k].jobs, start.lanes[k].jobs)
  {
    var jobs, before := end.lanes[k].jobs, middle.lanes[k].jobs;
    assert jobs == [t] + before && jobs[1..] == before && jobs[0] == t;
    EndsWithTransitive(start.lanes[k].jobs, before, jobs);
  }

  lemma OnNewTimer(t: Ticket, start: Places, middle: Places, end: Places)
    requires PutOnTimer(t, middle, end) && Grown(start, middle)
    ensures |end.lanes| == |start.lanes| && OnTimer(end.retry, t)
  {
  }

  lemma HandedOnEnds(t: Ticket, start: Places, middle: Places, end: Places)
    requires HandedOn(t, middle, end) && Grown(start, middle)
    ensures |end.lanes| == |start.lanes| && t in end.delivered
  {
  }

  /** A job collected last is where its reply sends it. */
  lemma FateEnds(p: Sent, r: X.Collected, start: Places, middle: Places, end: Places, max: int)
    requires Fate(p.ticket, p.lane, r, middle, end, max) && Grown(start, middle)
    requires p.ticket in start.entries && middle.entries[p.ticket] == start.entries[p.ticket] && p.lane < |start.lanes|
    ensures Ended(p, r, start, end, max)
  {
    hide PutInFront, PutOnTimer, HandedOn, Grown, AheadOf, OnTimer;
    var t := p.ticket;
    if PutInFront(t, p.lane, middle, end) { PutAhead(t, p.lane, start, middle, end); }
    if PutOnTimer(t, middle, end) { OnNewTimer(t, start, middle, end); }
    if HandedOn(t, middle, end) { HandedOnEnds(t, start, middle, end); }
  }

  /** And stays there while others are collected. */
  lemma EndedStays(p: Sent, r: X.Collected, start: Places, middle: Places, end: Places, max: int, t: Ticket)
    requires Ended(p, r, start, middle, max) && Grown(start, middle) && Grown(middle, end)
    requires OneEntry(middle.entries, end.entries, t) && t != p.ticket
    ensures Ended(p, r, start, end, max)
  {
    EndsWithTransitive(start.lanes[p.lane].jobs, middle.lanes[p.lane].jobs, end.lanes[p.lane].jobs);
    if OnTimer(middle.retry, p.ticket) {
      var i :| 0 <= i < |middle.retry| && middle.retry[i].1 == p.ticket;
      assert end.retry[i].1 == p.ticket;
    }
  }

  /** Halfway through collecting: the first replies are in and their jobs are where those send them, the
      other dispatched jobs are as they were, and nothing was taken away. */
  ghost predicate HalfCollected(pending: seq<Sent>, replies: seq<X.Collected>, start: Places, here: Places, max: int) {
    && |replies| <= |pending| && Grown(start, here)
    && (forall i :: 0 <= i < |replies| ==> Ended(pending[i], replies[i], start, here, max))
    && (forall i :: |replies| <= i < |pending| ==>
          && pending[i].ticket in start.entries && pending[i].ticket in here.entries && pending[i].lane < |start.lanes|
          && here.entries[pending[i].ticket] == start.entries[pending[i].ticket])
  }

  /** One round of a pass: the cells offered work, the jobs sent out, where everything was while they were out, and the replies. */
  datatype Round = Round(cells: seq<X.CellId>, pending: seq<Sent>, replies: seq<X.Collected>, flown: Places)

  ghost predicate EveryLiveCell(cells: seq<X.CellId>, ids: seq<X.CellId>, child: map<X.CellId, X.Child>) {
    X.Distinct(cells) && forall c :: c in cells <==> c in ids && c in child && child[c].alive
  }

  predicate DistinctJobs(pending: seq<Sent>, entries: map<Ticket, Queued>) {
    forall i, j :: 0 <= i < j < |pending| && pending[i].ticket in entries && pending[j].ticket in entries ==>
      pending[i].ticket != pending[j].ticket && entries[pending[i].ticket].job.id != entries[pending[j].ticket].job.id
  }

  lemma NoneCollected(pending: seq<Sent>, start: Places, busy: set<X.CellId>, max: int)
    requires AllAwaited(start, busy, pending)
    ensures HalfCollected(pending, [], start, start, max)
  {
    forall i | 0 <= i < |pending|
      ensures pending[i].ticket in start.entries && pending[i].lane < |start.lanes|
    {
      assert Awaited(start, busy, pending[i]);
    }
  }

  lemma OneMoreCollected(pending: seq<Sent>, replies: seq<X.Collected>, r: X.Collected, start: Places, here: Places, after: Places, max: int)
    requires HalfCollected(pending, replies, start, here, max) && |replies| < |pending| && DistinctJobs(pending, start.entries)
    requires Fate(pending[|replies|].ticket, pending[|replies|].lane, r, here, after, max)
    ensures HalfCollected(pending, replies + [r], start, after, max)
  {
    hide Fate, Ended, Grown;
    var p := pending[|replies|];
    FateGrows(p.ticket, p.lane, r, here, after, max);
    GrownTransitive(start, here, after);
    FateEnds(p, r, start, here, after, max);
    forall i | 0 <= i < |replies| ensures Ended(pending[i], replies[i], start, after, max) {
      EndedIsKnown(pending[i], replies[i], start, here, max);
      EndedStays(pending[i], replies[i], start, here, after, max, p.ticket);
    }
  }

  lemma EndedIsKnown(p: Sent, r: X.Collected, start: Places, end: Places, max: int)
    requires Ended(p, r, start, end, max)
    ensures p.ticket in start.entries && p.ticket in end.entries && p.lane < |start.lanes|
  {
  }

  /** The jobs whose reply cost them an attempt. */
  function Spenders(pending: seq<Sent>, replies: seq<X.Collected>, entries: map<Ticket, Queued>): (ids: set<Id>)
    ensures forall id :: id in ids <==>
      exists i :: 0 <= i < |replies| && i < |pending| && Transiently(replies[i])
        && pending[i].ticket in entries && entries[pending[i].ticket].job.id == id
  {
    set i | 0 <= i < |replies| && i < |pending| && Transiently(replies[i]) && pending[i].ticket in entries :: entries[pending[i].ticket].job.id
  }

  lemma OneMoreReply(pending: seq<Sent>, replies: seq<X.Collected>, r: X.Collected, entries: map<Ticket, Queued>, id: Id)
    requires |replies| < |pending| && DistinctJobs(pending, entries)
    requires pending[|replies|].ticket in entries && entries[pending[|replies|].ticket].job.id == id
    ensures Spenders(pending, replies, entries) !! Spender(r, id)
    ensures Spenders(pending, replies + [r], entries) == Spenders(pending, replies, entries) + Spender(r, id)
  {
    var more := replies + [r];
    forall other ensures other in Spenders(pending, more, entries) <==> other in Spenders(pending, replies, entries) || other in Spender(r, id) {
      if other in Spenders(pending, replies, entries) {
        var i :| 0 <= i < |replies| && Transiently(replies[i]) && pending[i].ticket in entries && entries[pending[i].ticket].job.id == other;
        assert Transiently(more[i]);
      }
      if other in Spender(r, id) { assert Transiently(more[|replies|]); }
    }
  }

  lemma FliesOnce(p: Places, hand: multiset<Ticket>, t: Ticket)
    requires Conserved(p, hand)
    ensures p.flying[t] <= 1
  {
    assert Count(p, hand, t) == if t < p.next then 1 else 0;
  }

  lemma {:induction false} ListedTwice(pending: seq<Sent>, i: nat, j: nat)
    requires i < j < |pending| && pending[i].ticket == pending[j].ticket
    ensures TicketsOf(pending)[pending[i].ticket] >= 2
    decreases i
  {
    if i > 0 { ListedTwice(pending[1..], i - 1, j - 1); } else { TicketListed(pending[1..], j - 1); }
  }

  /** No two of the jobs in flight are the same job. */
  lemma FlightsAreDistinct(pending: seq<Sent>, p: Places, jobs: map<Id, Job>, clean: bool, max: int, busy: set<X.CellId>)
    requires Good(p, jobs, clean, max, multiset{}) && AllAwaited(p, busy, pending)
    ensures DistinctJobs(pending, p.entries)
  {
    forall i, j | 0 <= i < j < |pending|
      ensures pending[i].ticket in p.entries && pending[j].ticket in p.entries && pending[i].ticket != pending[j].ticket
      ensures p.entries[pending[i].ticket].job.id != p.entries[pending[j].ticket].job.id
    {
      assert Awaited(p, busy, pending[i]) && Awaited(p, busy, pending[j]);
      FliesOnce(p, multiset{}, pending[i].ticket);
      if pending[i].ticket == pending[j].ticket { ListedTwice(pending, i, j); }
      if p.entries[pending[i].ticket].job.id == p.entries[pending[j].ticket].job.id {
        OneFlightPerJob(p, jobs, pending[i].ticket, pending[j].ticket);
      }
    }
  }

  class Scheduler {
    const ledger: Ledger
    const bank: X.CellBank
    const policy: R.Policy
    const maxAttempts: int
    const retryBackoff: real
    const maxRetryBackoff: real
    const hotTtl: real
    const loadConcurrency: int
    const reclaimRatio: real

    /** The submitted entries, by identity. */
    var entries: map<Ticket, Queued>
    var next: Ticket
    var inbox: seq<Ticket>
    var lanes: seq<Lane>
    var retry: seq<(int, Ticket)>
    var paused: bool

    /** Entries in flight on a cell, and entries that left: by a refused edge, or by a delivery. */
    var flying: multiset<Ticket>
    var refused: multiset<Ticket>
    var delivered: multiset<Ticket>
    /** Every ledger edge asked for so far. */
    ghost var requested: set<Edge>
    /** Entries the ledger refused an edge, and entries whose inference succeeded. */
    ghost var denied: set<Ticket>
    /** The cells offered work so far, in order. */
    ghost var offered: seq<X.CellId>
    ghost var answered: set<Ticket>
    /** Whether every advanced job submitted so far was the ledger's own row, held by nobody else. */
    ghost var clean: bool

    constructor (ledger: Ledger, bank: X.CellBank, policy: R.Policy, maxAttempts: int, retryBackoff: real,
                 maxRetryBackoff: real, hotTtl: real, loadConcurrency: int, reclaimRatio: real)
      requires forall id :: id in ledger.jobs ==> ledger.jobs[id].id == id
      ensures Inv(multiset{}) && lanes == [] && inbox == [] && retry == [] && flying == multiset{}
      ensures this.ledger == ledger && this.bank == bank && this.policy == policy && this.maxAttempts == maxAttempts
      ensures clean == WithinAttempts(ledger.jobs, maxAttempts)
    {
      this.ledger, this.bank, this.policy, this.maxAttempts := ledger, bank, policy, maxAttempts;
      this.retryBackoff, this.maxRetryBackoff, this.hotTtl := retryBackoff, maxRetryBackoff, hotTtl;
      this.loadConcurrency, this.reclaimRatio := loadConcurrency, reclaimRatio;
      entries, next, inbox, lanes, retry, paused := map[], 0, [], [], [], false;
      flying, refused, delivered := multiset{}, multiset{}, multiset{};
      requested, denied, answered, offered := {}, {}, {}, [];
      clean := WithinAttempts(ledger.jobs, maxAttempts);
      NothingSubmitted(ledger.jobs, maxAttempts);
    }

    function View(): Places
      reads this
    {
      Places(entries, next, inbox, lanes, retry, flying, refused, delivered)
    }

    /** What holds between any two steps of a pass, with `hand` the entries a step is holding. */
    ghost predicate Inv(hand: multiset<Ticket>)
      reads this, ledger
    {
      Good(View(), ledger.jobs, clean, maxAttempts, hand) && OnlyOwn(requested)
      && Accounted(entries, refused, delivered, denied, answered)
    }

    // -- queue management ------------------------------------------------------------------------

    lemma NextIsNew(hand: multiset<Ticket>)
      requires Inv(hand)
      ensures next !in entries
    {
    }

    /** Take one admitted job. A state the scheduler cannot act on is refused. */
    method Submit(job: Job, priority: int, now: int) returns (accepted: bool)
      requires Inv(multiset{})
      requires job.id in ledger.jobs && ledger.jobs[job.id].digest == job.digest
      modifies this`entries, this`next, this`inbox, this`clean
      ensures Inv(multiset{})
      ensures accepted == Schedulable(job.state)
      ensures View() == if accepted then Submitted(old(View()), Queued(job, priority, now, now)) else old(View())
      ensures clean == (old(clean) && (accepted && Held(job.state) ==> Unclaimed(old(View()), ledger.jobs, job)))
    {
      hide Good, Accounted, OnlyOwn;
      if !Schedulable(job.state) { return false; }
      var entry := Queued(job, priority, now, now);
      ghost var was := View();
      SubmitGood(was, ledger.jobs, clean, maxAttempts, entry);
      NextIsNew(multiset{});
      StillAccounted(entries, entries[next := entry], refused, delivered, denied, answered);
      clean := clean && (Held(job.state) ==> Unclaimed(was, ledger.jobs, job));
      entries, inbox, next := entries[next := entry], inbox + [next], next + 1;
      assert View() == Submitted(was, entry);
      return true;
    }

    /** Find a digest's lane, or open one at the end. */
    method LaneOf(digest: string, ghost hand: multiset<Ticket>) returns (k: nat)
      requires Inv(hand)
      modifies this`lanes
      ensures Inv(hand) && k < |lanes| && lanes[k].digest == digest
      ensures lanes == old(lanes) || lanes == old(lanes) + [Lane(digest, [], 0, 0, 0, None)]
    {
      k := 0;
      while k < |lanes|
        invariant k <= |lanes| && forall j :: 0 <= j < k ==> lanes[j].digest != digest
      {
        if lanes[k].digest == digest { return; }
        k := k + 1;
      }
      OpenGood(View(), ledger.jobs, clean, maxAttempts, digest, hand);
      lanes := lanes + [Lane(digest, [], 0, 0, 0, None)];
    }

    /** Put an entry in hand into a lane. */
    method Requeue(k: nat, t: Ticket, front: bool, ghost rest: multiset<Ticket>)
      requires Inv(multiset{t} + rest) && k < |lanes| && t in entries
      requires entries[t].job.digest == lanes[k].digest && Claimable(entries[t].job.state)
      modifies this`lanes
      ensures Inv(rest) && View() == Pushed(old(View()), k, t, front)
    {
      PushGood(View(), ledger.jobs, clean, maxAttempts, k, t, front, rest);
      lanes := lanes[k := lanes[k].(jobs := if front then [t] + lanes[k].jobs else lanes[k].jobs + [t])];
    }

    /** Take the head of a lane in hand. */
    method PopHead(k: nat) returns (t: Ticket)
      requires Inv(multiset{}) && k < |lanes| && lanes[k].jobs != []
      modifies this`lanes
      ensures Inv(multiset{t}) && t == old(lanes)[k].jobs[0] && View() == Popped(old(View()), k)
      ensures t in entries && Claimable(entries[t].job.state) && OneLane(old(lanes), lanes, k)
    {
      PopGood(View(), ledger.jobs, clean, maxAttempts, k);
      t := lanes[k].jobs[0];
      lanes := lanes[k := lanes[k].(jobs := lanes[k].jobs[1..])];
    }

    static lemma Alone(t: Ticket)
      ensures multiset{t} + multiset{} == multiset{t}
    {
    }

    /** The ledger refused the entry in hand: someone else moved its job. */
    method Drop(t: Ticket, ghost rest: multiset<Ticket>)
      requires Inv(multiset{t} + rest) && t in denied
      modifies this`refused
      ensures Inv(rest) && View() == Dropped(old(View()), t)
    {
      hide Good, Accounted;
      DropGood(View(), ledger.jobs, clean, maxAttempts, t, rest);
      DropIsAccounted(entries, refused, delivered, denied, answered, t);
      refused := refused + multiset{t};
    }

    /** Move submitted jobs into their lanes, or back onto their timers. */
    method DrainInbox(now: int) returns (taken: nat)
      requires Inv(multiset{})
      modifies this`inbox, this`lanes, this`retry
      ensures Inv(multiset{}) && inbox == [] && taken == |old(inbox)|
    {
      hide Good, Accounted;
      var arrived := inbox;
      EmptyInboxGood(View(), ledger.jobs, clean, maxAttempts);
      inbox := [];
      var k := 0;
      assert arrived[0..] == arrived;
      while k < |arrived|
        invariant k <= |arrived| && Inv(multiset(arrived[k..])) && inbox == []
        invariant forall j :: 0 <= j < |arrived| ==> arrived[j] in entries && Schedulable(entries[arrived[j]].job.state)
      {
        NextInHand(arrived, k);
        Shelve(arrived[k], now, multiset(arrived[k + 1..]));
        k := k + 1;
      }
      assert arrived[|arrived|..] == [];
      return |arrived|;
    }

    /** When a waiting job is due: at the time the ledger holds, or now when it holds none. */
    static function DueAt(job: Job, now: int): int {
      if job.nextAttempt.Some? && job.nextAttempt.value != 0 then job.nextAttempt.value else now
    }

    /** Where a newly arrived entry goes. */
    method Shelve(t: Ticket, now: int, ghost rest: multiset<Ticket>)
      requires Inv(multiset{t} + rest) && t in entries && Schedulable(entries[t].job.state)
      modifies this`lanes, this`retry
      ensures Inv(rest)
      ensures entries[t].job.state == RetryWait ==> lanes == old(lanes) && retry == old(retry) + [(DueAt(entries[t].job, now), t)]
      ensures entries[t].job.state != RetryWait ==> retry == old(retry) && Last(t)
    {
      hide Inv, Last;
      var job := entries[t].job;
      if job.state == RetryWait {
        Time(DueAt(job, now), t, rest);
      } else {
        Enlist(t, rest);
      }
    }

    /** Start a retry timer for the entry in hand. */
    method Time(due: int, t: Ticket, ghost rest: multiset<Ticket>)
      requires Inv(multiset{t} + rest)
      modifies this`retry
      ensures Inv(rest) && View() == Timed(old(View()), due, t)
    {
      TimeGood(View(), ledger.jobs, clean, maxAttempts, due, t, rest);
      retry := retry + [(due, t)];
    }

    method Pause()
      modifies this`paused
      ensures paused
    {
      paused := true;
    }

    method Resume()
      modifies this`paused
      ensures !paused
    {
      paused := false;
    }

    // -- durable edges ---------------------------------------------------------------------------

    /** Anyone else may use the ledger now. */
    method Others(ghost hand: multiset<Ticket>)
      requires Inv(hand)
      modifies ledger`jobs
      ensures Inv(hand) && OthersMay(View(), old(ledger.jobs), ledger.jobs, maxAttempts)
      ensures AttemptsKept(old(ledger.jobs), ledger.jobs)
    {
      var jobs: map<Id, Job> := *;
      if OthersMay(View(), ledger.jobs, jobs, maxAttempts) {
        OthersGood(View(), ledger.jobs, jobs, clean, maxAttempts, hand);
        ledger.jobs := jobs;
      }
    }

    /** The ledger's compare-and-set, for an edge the scheduler owns. */
    method CompareAndSet(id: Id, expected: JobState, next: JobState, f: Fields) returns (r: Option<Job>)
      requires OwnEdge((expected, next))
      modifies this`requested, ledger`jobs, ledger`reservations
      ensures requested == old(requested) + {(expected, next)}
      ensures r.Some? <==> id in old(ledger.jobs) && old(ledger.jobs)[id].state == expected
      ensures r.Some? ==> r.value == Moved(old(ledger.jobs)[id], next, f) && ledger.jobs == old(ledger.jobs)[id := r.value]
      ensures r.None? ==> ledger.jobs == old(ledger.jobs)
    {
      requested := requested + {(expected, next)};
      OwnEdgesAreLegal((expected, next));
      var moved := ledger.SetState(id, expected, next, f);
      return if moved.Ok? then Some(moved.value) else None;
    }

    /** Ask the ledger for one edge of an entry; the queued copy follows what it grants. Others may use the
        ledger first. */
    method Transition(t: Ticket, expected: JobState, next: JobState, f: Fields, ghost hand: multiset<Ticket>)
      returns (r: Option<Job>)
      requires Inv(hand) && OwnEdge((expected, next)) && MayAsk(View(), clean, maxAttempts, hand, t, expected, next, f)
      modifies this`entries, this`requested, this`denied, ledger`jobs, ledger`reservations
      ensures Inv(hand)
      ensures entries == if r.Some? then old(entries)[t := old(entries)[t].(job := r.value)] else old(entries)
      ensures r.Some? ==> SameJob(old(entries)[t].job, r.value) && r.value.state == next
      ensures r.Some? && f.attempts.Some? ==> r.value.attempts == f.attempts.value
      ensures r.Some? && f.nextAttempt.Some? ==> r.value.nextAttempt == f.nextAttempt
      ensures expected == Inferencing || (clean && Held(expected)) ==> r.Some?
      ensures AttemptsElsewhere(old(ledger.jobs), ledger.jobs, old(entries)[t].job.id)
      ensures r.None? || f.attempts.None? ==> AttemptsKept(old(ledger.jobs), ledger.jobs)
      ensures var id := old(entries)[t].job.id;
              id in ledger.jobs && (if r.Some? then ledger.jobs[id] == r.value else ledger.jobs[id].state != expected)
      ensures denied == if r.Some? then old(denied) else old(denied) + {t}
    {
      hide Inv, Good, Accounted, OthersMay, MayAsk, AttemptsKept, AttemptsElsewhere, OwnEdge, Held, SameJob;
      Others(hand);
      ghost var meanwhile := ledger.jobs;
      r := Take(t, expected, next, f, hand);
      JobRewritten(old(ledger.jobs), meanwhile, ledger.jobs, entries[t].job.id);
    }

    /** The edge itself. */
    method Take(t: Ticket, expected: JobState, next: JobState, f: Fields, ghost hand: multiset<Ticket>) returns (r: Option<Job>)
      requires Inv(hand) && OwnEdge((expected, next)) && MayAsk(View(), clean, maxAttempts, hand, t, expected, next, f)
      modifies this`entries, this`requested, this`denied, ledger`jobs, ledger`reservations
      ensures Inv(hand) && t in entries && entries[t].job.id == old(entries)[t].job.id
      ensures entries == if r.Some? then old(entries)[t := old(entries)[t].(job := r.value)] else old(entries)
      ensures var id := old(entries)[t].job.id;
              && id in old(ledger.jobs)
              && (r.Some? ==> SameJob(old(entries)[t].job, r.value) && r.value == Moved(old(ledger.jobs)[id], next, f))
              && ledger.jobs == (if r.Some? then old(ledger.jobs)[id := r.value] else old(ledger.jobs))
              && (r.None? ==> ledger.jobs[id].state != expected)
      ensures denied == if r.Some? then old(denied) else old(denied) + {t}
      ensures expected == Inferencing || (clean && Held(expected)) ==> r.Some?
    {
      hide Good, Accounted, MayAsk, OwnEdge, OnlyOwn, Held, Adopted, Moved;
      AskGood(View(), ledger.jobs, clean, maxAttempts, hand, t, expected, next, f);
      OneMoreOwn(requested, (expected, next));
      assert Live(View(), t) by { Asks(t, expected, next, f, hand); }
      r := CompareAndSet(entries[t].job.id, expected, next, f);
      if r.Some? {
        Adopt(t, r.value, hand);
      } else {
        Deny(t, hand);
      }
    }

    lemma Asks(t: Ticket, expected: JobState, next: JobState, f: Fields, hand: multiset<Ticket>)
      requires MayAsk(View(), clean, maxAttempts, hand, t, expected, next, f)
      ensures Live(View(), t)
    {
    }

    /** The ledger's row is elsewhere. */
    ghost method Deny(t: Ticket, hand: multiset<Ticket>)
      requires Inv(hand)
      modifies this`denied
      ensures Inv(hand) && denied == old(denied) + {t}
    {
      hide Good, OnlyOwn;
      denied := denied + {t};
    }

    static lemma OneMoreOwn(edges: set<Edge>, e: Edge)
      requires OnlyOwn(edges) && OwnEdge(e)
      ensures OnlyOwn(edges + {e})
    {
    }

    /** The queued copy takes over the row the ledger returned. */
    method Adopt(t: Ticket, job: Job, ghost hand: multiset<Ticket>)
      requires Live(View(), t) && Good(Adopted(View(), t, job), ledger.jobs, clean, maxAttempts, hand) && OnlyOwn(requested)
      requires Accounted(entries, refused, delivered, denied, answered)
      modifies this`entries
      ensures Inv(hand) && entries == old(entries)[t := old(entries)[t].(job := job)]
    {
      hide Good;
      ghost var was := View();
      entries := entries[t := entries[t].(job := job)];
      assert View() == Adopted(was, t, job);
    }

    /** Two edges at most lead from READY to WAITING_MODEL; take those that are left. */
    method Claim(t: Ticket, ghost hand: multiset<Ticket>) returns (ok: bool)
      requires Inv(hand) && Live(View(), t) && t !in inbox && t !in flying && Claimable(entries[t].job.state)
      modifies this`entries, this`requested, this`denied, ledger`jobs, ledger`reservations
      ensures Inv(hand) && OneEntry(old(entries), entries, t) && AttemptsKept(old(ledger.jobs), ledger.jobs)
      ensures ok <==> entries[t].job.state in {WaitingModel, Inferencing}
      ensures old(entries[t].job.state) in {WaitingModel, Inferencing} ==> entries == old(entries)
      ensures Claimable(entries[t].job.state)
      ensures if ok then denied == old(denied) else t in denied && Disowned(t)
      ensures clean && Held(old(entries)[t].job.state) ==> ok
    {
      hide Good, Accounted, OneEntry, AttemptsKept;
      NothingReplaced(entries, ledger.jobs, t);
      if entries[t].job.state == Ready {
        var claimed := Forward(t, Ready, Claimed, hand);
        if !claimed { return false; }
      }
      if entries[t].job.state == Claimed {
        ghost var before, jobs := entries, ledger.jobs;
        var waiting := Forward(t, Claimed, WaitingModel, hand);
        OneEntryComposes(old(entries), before, entries, t);
        KeptComposes(old(ledger.jobs), jobs, ledger.jobs);
        if !waiting { return false; }
      }
      return entries[t].job.state in {WaitingModel, Inferencing};
    }

    /** The ledger's row of the entry's job has another state than the entry. */
    predicate Disowned(t: Ticket)
      reads this`entries, ledger`jobs
    {
      t in entries && entries[t].job.id in ledger.jobs && ledger.jobs[entries[t].job.id].state != entries[t].job.state
    }

    /** One edge on the way to a session; the job's attempts play no part in it. */
    method Forward(t: Ticket, expected: JobState, next: JobState, ghost hand: multiset<Ticket>) returns (ok: bool)
      requires Inv(hand) && Live(View(), t) && t !in inbox && t !in flying && expected == entries[t].job.state
      requires (expected == Ready && next == Claimed) || (expected == Claimed && next == WaitingModel)
      modifies this`entries, this`requested, this`denied, ledger`jobs, ledger`reservations
      ensures Inv(hand) && OneEntry(old(entries), entries, t) && AttemptsKept(old(ledger.jobs), ledger.jobs)
      ensures entries[t].job.state == if ok then next else expected
      ensures if ok then denied == old(denied) else t in denied && Disowned(t)
      ensures clean && Held(expected) ==> ok
      ensures t !in inbox && t !in flying && Live(View(), t)
    {
      hide Good, Accounted, OneEntry, AttemptsKept, AttemptsElsewhere;
      var moved := Transition(t, expected, next, NO_FIELDS, hand);
      if moved.Some? { ReplacedOne(old(entries), t, moved.value); } else { NothingReplaced(entries, ledger.jobs, t); }
      return moved.Some?;
    }

    /** The retry delay for an attempt: doubled each time up to a ceiling, half of it jittered. */
    method Backoff(attempts: int) returns (ms: int)
      ensures Delay(attempts) >= 0.0 ==> BacksOff(ms, attempts)
    {
      var half := Delay(attempts) / 2.0;
      var jitter: real := *;
      if jitter < 0.0 || jitter > half { jitter := 0.0; }
      return R.Trunc((half + jitter) * 1000.0);
    }

    /** At least half the delay, so that jitter never makes it none, and at most all of it. */
    predicate BacksOff(ms: int, attempts: int) {
      R.Trunc(Delay(attempts) / 2.0 * 1000.0) <= ms <= R.Trunc(Delay(attempts) * 1000.0)
    }

    function Delay(attempts: int): (delay: real)
      ensures delay <= maxRetryBackoff
    {
      var delay := retryBackoff * R.Power(2.0, R.Max(attempts - 1, 0));
      if delay <= maxRetryBackoff then delay else maxRetryBackoff
    }

    /** The ledger's row of the entry's job is not waiting for a retry. */
    predicate Unready(t: Ticket)
      reads this`entries, ledger`jobs
    {
      t in entries && entries[t].job.id in ledger.jobs && ledger.jobs[entries[t].job.id].state != RetryWait
    }

    /** The first delay is the configured one, each later one twice the one before, and none above the ceiling. */
    lemma DelayDoubles(attempts: int)
      requires retryBackoff >= 0.0
      ensures attempts <= 1 ==> Delay(attempts) == if retryBackoff <= maxRetryBackoff then retryBackoff else maxRetryBackoff
      ensures attempts > 1 && 0.0 <= maxRetryBackoff ==>
        var twice := 2.0 * Delay(attempts - 1); Delay(attempts) == if twice <= maxRetryBackoff then twice else maxRetryBackoff
    {
      if attempts > 1 {
        var before := R.Power(2.0, attempts - 2);
        assert R.Power(2.0, attempts - 1) == 2.0 * before;
        assert retryBackoff * (2.0 * before) == 2.0 * (retryBackoff * before);
      }
    }

    /** Return one due entry to its lane. */
    method Promote(t: Ticket, now: int, ghost rest: multiset<Ticket>)
      requires Inv(multiset{t} + rest)
      modifies this`entries, this`requested, this`denied, this`lanes, this`refused, ledger`jobs, ledger`reservations
      ensures Inv(rest) && AttemptsKept(old(ledger.jobs), ledger.jobs)
      ensures if refused == old(refused) then
                t in entries && entries[t].job.state == Ready && entries[t].queuedAt == now && Last(t)
              else refused == old(refused) + multiset{t} && lanes == old(lanes) && entries == old(entries) && Unready(t)
    {
      hide Inv, Good, Last, AttemptsKept, AttemptsElsewhere;
      HandIsLive(t, multiset{t} + rest);
      var moved := Transition(t, RetryWait, Ready, NO_FIELDS, multiset{t} + rest);
      if moved.None? {
        Drop(t, rest);
      } else {
        Restamp(t, now, multiset{t} + rest);
        Enlist(t, rest);
      }
    }

    lemma HandIsLive(t: Ticket, hand: multiset<Ticket>)
      requires Inv(hand) && t in hand
      ensures Live(View(), t) && t !in flying && t !in inbox
    {
      hide Accounted;
      InHand(View(), ledger.jobs, clean, maxAttempts, hand, t);
    }

    method Restamp(t: Ticket, now: int, ghost hand: multiset<Ticket>)
      requires Inv(hand) && t in entries
      modifies this`entries
      ensures Inv(hand) && entries == old(entries)[t := old(entries)[t].(queuedAt := now)]
    {
      hide Good, Accounted;
      RestampGood(View(), ledger.jobs, clean, maxAttempts, hand, t, now);
      StillAccounted(entries, entries[t := entries[t].(queuedAt := now)], refused, delivered, denied, answered);
      entries := entries[t := entries[t].(queuedAt := now)];
    }

    /** The entry in hand goes to the back of its lane. */
    method Enlist(t: Ticket, ghost rest: multiset<Ticket>)
      requires Inv(multiset{t} + rest) && t in entries && Claimable(entries[t].job.state)
      modifies this`lanes
      ensures Inv(rest) && Last(t)
    {
      hide Inv;
      var k := LaneOf(entries[t].job.digest, multiset{t} + rest);
      Requeue(k, t, false, rest);
      assert lanes[k].jobs[|lanes[k].jobs| - 1] == t;
    }

    /** The entry is at the back of the lane of its model. */
    ghost predicate Last(t: Ticket)
      reads this`lanes, this`entries
    {
      t in entries && exists k :: 0 <= k < |lanes| && lanes[k].digest == entries[t].job.digest && EndsIn(lanes[k].jobs, t)
    }

    /** Take every timer whose time has come and promote its entry. */
    method PromoteRetries(now: int)
      requires Inv(multiset{})
      modifies this`entries, this`requested, this`denied, this`lanes, this`refused, this`retry, ledger`jobs, ledger`reservations
      ensures Inv(multiset{}) && AttemptsKept(old(ledger.jobs), ledger.jobs)
      ensures retry == NotDue(old(retry), now)
    {
      hide Good, Accounted, OnTimers, Due, NotDue;
      var due, left := Due(retry, now), NotDue(retry, now);
      TimersSplit(retry, now);
      UntimeGood(View(), ledger.jobs, clean, maxAttempts, left, multiset(due));
      retry := left;
      assert due[0..] == due;
      var k := 0;
      while k < |due|
        invariant k <= |due| && Inv(multiset(due[k..])) && retry == left && AttemptsKept(old(ledger.jobs), ledger.jobs)
      {
        NextInHand(due, k);
        Promote(due[k], now, multiset(due[k + 1..]));
        k := k + 1;
      }
      assert due[|due|..] == [];
    }

    /** The copy of a job being inferred is never stale, nor is any copy of an advanced job when every
        submission was clean: the ledger counts the same attempts. */
    lemma CopyIsCurrent(t: Ticket, hand: multiset<Ticket>)
      requires Inv(hand) && t in hand && t in entries && Held(entries[t].job.state)
      requires clean || entries[t].job.state == Inferencing
      ensures entries[t].job.id in ledger.jobs && ledger.jobs[entries[t].job.id].attempts == entries[t].job.attempts
      ensures clean ==> entries[t].job.attempts < maxAttempts
    {
      HandIsNowhere(View(), hand, t);
    }

    lemma MayCount(t: Ticket, next: JobState, f: Fields)
      requires Inv(multiset{t}) && t in entries && Held(entries[t].job.state) && !Held(next)
      requires clean && f.attempts.Some? ==> f.attempts.value < maxAttempts || next == ProcessingExhausted
      ensures MayAsk(View(), clean, maxAttempts, multiset{t}, t, entries[t].job.state, next, f)
    {
      hide Good, MayAsk, Accounted;
      HandMayAsk(View(), ledger.jobs, clean, maxAttempts, multiset{t}, t, next, f);
    }

    /** Store an attempt count with an edge out of WAITING_MODEL or INFERENCING. */
    method Count(t: Ticket, next: JobState, count: int, due: Option<int>, error: string) returns (moved: bool)
      requires Inv(multiset{t}) && t in entries && OwnEdge((entries[t].job.state, next))
      requires Held(entries[t].job.state) && !Held(next)
      requires clean ==> count < maxAttempts || next == ProcessingExhausted
      modifies this`entries, this`requested, this`denied, ledger`jobs, ledger`reservations
      ensures Inv(multiset{t}) && (moved ==> OneEntry(old(entries), entries, t)) && (!moved ==> entries == old(entries) && t in denied)
      ensures moved ==> entries[t].job.state == next && entries[t].job.attempts == count
      ensures moved && due.Some? ==> entries[t].job.nextAttempt == due
      ensures clean || old(entries)[t].job.state == Inferencing ==>
        moved && CountMoved(old(ledger.jobs), ledger.jobs, old(entries)[t].job, count)
    {
      hide Inv, Good, OneEntry, AttemptsKept, CountMoved, AttemptsElsewhere, OwnEdge, MayAsk, SameJob, Held;
      ghost var current := clean || entries[t].job.state == Inferencing;
      if current { CopyIsCurrent(t, multiset{t}); }
      MayCount(t, next, Fields(Some(count), due, Some(error)));
      var was := entries[t].job;
      var job := Transition(t, was.state, next, Fields(Some(count), due, Some(error)), multiset{t});
      if job.Some? {
        ReplacedOne(old(entries), t, job.value);
        if current { CountStored(old(ledger.jobs), ledger.jobs, was, count); }
      }
      return job.Some?;
    }

    /** Send the job in hand to RETRY_WAIT with its backoff; without an attempt count it keeps its own. */
    method RetryLater(t: Ticket, error: string, attempts: Option<int>, delay: Option<int>, clock: int)
      requires Inv(multiset{t}) && t in entries && entries[t].job.state in {WaitingModel, Inferencing}
      requires attempts.Some? ==> attempts.value < maxAttempts
      modifies this`entries, this`requested, this`denied, this`retry, this`refused, ledger`jobs, ledger`reservations
      ensures Inv(multiset{}) && (entries == old(entries) || OneEntry(old(entries), entries, t))
      ensures clean || old(entries)[t].job.state == Inferencing ==>
        var count := if attempts.Some? then attempts.value else old(entries)[t].job.attempts;
        && RetryingWith(t, count) && CountMoved(old(ledger.jobs), ledger.jobs, old(entries)[t].job, count)
        && PutOnTimer(t, old(View()), View()) && refused == old(refused) && OneEntry(old(entries), entries, t)
        && DueIn(t, clock, count, delay)
    {
      hide Inv, Good, CountMoved, PutOnTimer, BacksOff, Delay, OneEntry, RetryingWith;
      if clean { CopyIsCurrent(t, multiset{t}); }
      var count := if attempts.Some? then attempts.value else entries[t].job.attempts;
      var wait: int;
      if delay.Some? { wait := delay.value; } else { wait := Backoff(count); }
      Postpone(t, error, count, clock + wait);
    }

    /** Send the job in hand to RETRY_WAIT until a given time. */
    method Postpone(t: Ticket, error: string, count: int, due: int)
      requires Inv(multiset{t}) && t in entries && entries[t].job.state in {WaitingModel, Inferencing}
      requires clean ==> count < maxAttempts
      modifies this`entries, this`requested, this`denied, this`retry, this`refused, ledger`jobs, ledger`reservations
      ensures Inv(multiset{}) && (entries == old(entries) || OneEntry(old(entries), entries, t))
      ensures clean || old(entries)[t].job.state == Inferencing ==>
        && RetryingWith(t, count) && CountMoved(old(ledger.jobs), ledger.jobs, old(entries)[t].job, count)
        && PutOnTimer(t, old(View()), View()) && refused == old(refused) && OneEntry(old(entries), entries, t)
        && TimedAt(t, due)
    {
      hide Inv, Good, CountMoved, PutOnTimer, OneEntry;
      var moved := Count(t, RetryWait, count, Some(due), error);
      Alone(t);
      if moved {
        OneEntryHas(old(entries), entries, t);
        ghost var counted := View();
        SetTimer(t, due);
        TimerSince(t, old(View()), counted, View());
      } else {
        Drop(t, multiset{});
      }
    }

    /** The entry in hand, sent to RETRY_WAIT, goes on a timer. */
    method SetTimer(t: Ticket, due: int)
      requires Inv(multiset{t}) && t in entries && entries[t].job.state == RetryWait
      modifies this`retry
      ensures Inv(multiset{}) && PutOnTimer(t, old(View()), View()) && RetryingWith(t, entries[t].job.attempts)
      ensures retry[|retry| - 1].0 == due
    {
      hide Inv, Good;
      Alone(t);
      Time(due, t, multiset{});
    }

    /** The newest timer and the entry agree on when it is due. */
    predicate TimedAt(t: Ticket, due: int)
      reads this
    {
      retry != [] && retry[|retry| - 1].0 == due && t in entries && entries[t].job.nextAttempt == Some(due)
    }

    /** That is after the given delay, or after the backoff of the attempt. */
    predicate DueIn(t: Ticket, clock: int, attempts: int, delay: Option<int>)
      reads this
    {
      retry != [] && TimedAt(t, retry[|retry| - 1].0) &&
      var wait := retry[|retry| - 1].0 - clock;
      if delay.Some? then wait == delay.value else Delay(attempts) >= 0.0 ==> BacksOff(wait, attempts)
    }

    /** The entry waits on the newest timer, with this many attempts behind it. */
    ghost predicate RetryingWith(t: Ticket, attempts: int)
      reads this
    {
      && retry != [] && retry[|retry| - 1].1 == t
      && t in entries && entries[t].job.state == RetryWait && entries[t].job.attempts == attempts
    }

    /** The job in hand will not be tried again. */
    method Exhaust(t: Ticket, error: string, attempts: Option<int>) returns (moved: bool)
      requires Inv(multiset{t}) && t in entries && entries[t].job.state == Inferencing
      modifies this`entries, this`requested, this`denied, ledger`jobs, ledger`reservations
      ensures Inv(multiset{t}) && OneEntry(old(entries), entries, t) && moved
      ensures entries[t].job.state == ProcessingExhausted
      ensures entries[t].job.attempts == if attempts.Some? then attempts.value else old(entries)[t].job.attempts
      ensures CountMoved(old(ledger.jobs), ledger.jobs, old(entries)[t].job, entries[t].job.attempts)
    {
      hide Good, Accounted, CountMoved;
      var count := if attempts.Some? then attempts.value else entries[t].job.attempts;
      moved := Count(t, ProcessingExhausted, count, None, error);
    }

    /** Blocked when it waits for a model, exhausted when it is being inferred. */
    method Block(t: Ticket, error: string) returns (moved: bool)
      requires Inv(multiset{t}) && t in entries && entries[t].job.state in {WaitingModel, Inferencing}
      modifies this`entries, this`requested, this`denied, ledger`jobs, ledger`reservations
      ensures Inv(multiset{t}) && (entries == old(entries) || OneEntry(old(entries), entries, t))
      ensures (clean ==> moved) && (!moved ==> t in denied) && AttemptsKept(old(ledger.jobs), ledger.jobs)
      ensures moved ==> entries[t].job.state == if old(entries)[t].job.state == Inferencing then ProcessingExhausted else BlockedConfiguration
    {
      hide Good, Accounted;
      InHand(View(), ledger.jobs, clean, maxAttempts, multiset{t}, t);
      if entries[t].job.state == Inferencing {
        moved := Exhaust(t, error, None);
      } else {
        var job := Transition(t, WaitingModel, BlockedConfiguration, WithError(error), multiset{t});
        moved := job.Some?;
      }
    }

    /** Hand the answer for the entry in hand to the app, which may then use the ledger. */
    method Notify(t: Ticket)
      requires Inv(multiset{t}) && Settled(entries, answered, t)
      modifies this`delivered, ledger`jobs
      ensures Inv(multiset{}) && View() == Delivered(old(View()), t) && AttemptsKept(old(ledger.jobs), ledger.jobs)
    {
      Alone(t);
      DeliverGood(View(), ledger.jobs, clean, maxAttempts, t, multiset{});
      delivered := delivered + multiset{t};
      Others(multiset{});
    }

    /** A verdict that was recorded is delivered; one that was refused is not. */
    method Settle(t: Ticket, moved: bool)
      requires Inv(multiset{t}) && if moved then Settled(entries, answered, t) else t in denied
      modifies this`delivered, this`refused, ledger`jobs
      ensures Inv(multiset{}) && AttemptsKept(old(ledger.jobs), ledger.jobs)
      ensures View() == if moved then Delivered(old(View()), t) else Dropped(old(View()), t)
    {
      Alone(t);
      if moved { Notify(t); } else { Drop(t, multiset{}); }
    }

    /** Record a verdict that every job of a lane shares. */
    method Note(k: nat, lane: Lane, ghost hand: multiset<Ticket>)
      requires Inv(hand) && k < |lanes| && lane.jobs == lanes[k].jobs && lane.digest == lanes[k].digest
      modifies this`lanes
      ensures Inv(hand) && View() == Noted(old(View()), k, lane) && OneLane(old(lanes), lanes, k)
    {
      NoteGood(View(), ledger.jobs, clean, maxAttempts, k, lane, hand);
      lanes := lanes[k := lane];
    }

    /** Give the head of a lane its permanent verdict. */
    method BlockHead(k: nat, error: string)
      requires Inv(multiset{}) && k < |lanes| && lanes[k].jobs != []
      modifies this`entries, this`requested, this`denied, this`lanes, this`delivered, this`refused, ledger`jobs, ledger`reservations
      ensures Inv(multiset{}) && OneLane(old(lanes), lanes, k) && lanes[k].jobs == old(lanes)[k].jobs[1..]
      ensures lanes[k].blockedReason == old(lanes)[k].blockedReason
      ensures AttemptsKept(old(ledger.jobs), ledger.jobs)
      ensures SameJobs(old(entries), entries)
    {
      hide Good, Accounted, OneEntry, OneLane, SameJobs, AttemptsKept;
      var t := PopHead(k);
      InHand(View(), ledger.jobs, clean, maxAttempts, multiset{t}, t);
      var ok := Claim(t, multiset{t});
      OneEntryIsSameJobs(old(entries), entries, t);
      Alone(t);
      if !ok {
        Drop(t, multiset{});
      } else {
        ghost var claimed, kept := entries, ledger.jobs;
        Condemn(t, error);
        SameJobsCompose(old(entries), claimed, entries);
        KeptComposes(old(ledger.jobs), kept, ledger.jobs);
      }
    }

    /** Give the claimed job in hand its permanent verdict, and deliver it if it was recorded. */
    method Condemn(t: Ticket, error: string)
      requires Inv(multiset{t}) && t in entries && entries[t].job.state in {WaitingModel, Inferencing}
      modifies this`entries, this`requested, this`denied, this`delivered, this`refused, ledger`jobs, ledger`reservations
      ensures Inv(multiset{}) && AttemptsKept(old(ledger.jobs), ledger.jobs)
      ensures clean ==> delivered == old(delivered) + multiset{t}
      ensures SameJobs(old(entries), entries)
    {
      hide Inv, Good, Accounted, AttemptsKept, OneEntry, SameJobs;
      Unchanged(entries, lanes, ledger.jobs);
      var moved := Block(t, error);
      ghost var jobs := ledger.jobs;
      if entries != old(entries) { OneEntryIsSameJobs(old(entries), entries, t); }
      Settle(t, moved);
      KeptComposes(old(ledger.jobs), jobs, ledger.jobs);
    }

    /** A digest that cannot be served: block its lane and condemn its jobs one by one. */
    method BlockLane(k: nat, code: string, error: string)
      requires Inv(multiset{}) && k < |lanes|
      modifies this`entries, this`requested, this`denied, this`lanes, this`delivered, this`refused, ledger`jobs, ledger`reservations
      ensures Inv(multiset{}) && OneLane(old(lanes), lanes, k) && lanes[k].jobs == []
      ensures lanes[k].blockedReason == Some(code + ": " + error)
      ensures AttemptsKept(old(ledger.jobs), ledger.jobs)
      ensures SameJobs(old(entries), entries)
    {
      Note(k, lanes[k].(blockedReason := Some(code + ": " + error)), multiset{});
      while lanes[k].jobs != []
        invariant Inv(multiset{}) && OneLane(old(lanes), lanes, k) && SameJobs(old(entries), entries)
        invariant lanes[k].blockedReason == Some(code + ": " + error)
        invariant AttemptsKept(old(ledger.jobs), ledger.jobs)
        decreases |lanes[k].jobs|
      {
        BlockHead(k, code + ": " + error);
      }
    }

    // -- making a model resident -----------------------------------------------------------------

    /** The cells, the policy and the pass agree. */
    ghost predicate Running(state: X.Pass)
      reads bank, policy, state
    {
      bank.Sound(state) && policy.Valid() && policy.cfg == bank.cfg && state.Counted(loadConcurrency)
    }

    /** A claimed job stands at the head of a lane. */
    ghost predicate AtHead(k: nat, t: Ticket)
      reads this
    {
      && k < |lanes| && lanes[k].jobs != [] && lanes[k].jobs[0] == t
      && t in entries && entries[t].job.state in {WaitingModel, Inferencing}
    }

    /** An entry in hand is in no lane. */
    lemma OutOfLane(k: nat, t: Ticket)
      requires Inv(multiset{t}) && k < |lanes|
      ensures t !in lanes[k].jobs
    {
      HandIsNowhere(View(), multiset{t}, t);
    }

    /** One more load failed: the head left, and the lane may not load again for one backoff. */
    predicate BackedOff(before: Lane, after: Lane, now: int)
      requires before.jobs != []
    {
      var failures := before.loadFailures + 1;
      && after == before.(jobs := before.jobs[1..], loadFailures := failures, blockedUntil := after.blockedUntil)
      && (Delay(failures) >= 0.0 ==> BacksOff(after.blockedUntil - now, failures))
    }

    /** Why a job a load was tried for is not in its lane any more: the lane is blocked for good and empty, or backed
        off, or the job alone was set aside. */
    predicate Vacated(before: Lane, after: Lane, now: int) {
      before.jobs != [] && after.digest == before.digest &&
      (Shut(after) || BackedOff(before, after, now) || after == before.(jobs := before.jobs[1..]))
    }

    predicate Shut(lane: Lane) {
      lane.jobs == [] && lane.blockedReason.Some?
    }

    /** The lane may not load again for a while; its head job waits as long, at the same attempt. */
    method BackOffLane(k: nat, t: Ticket, error: string, now: int)
      requires Inv(multiset{}) && AtHead(k, t)
      modifies this`entries, this`requested, this`denied, this`lanes, this`retry, this`refused, ledger`jobs, ledger`reservations
      ensures Inv(multiset{}) && OneLane(old(lanes), lanes, k)
      ensures BackedOff(old(lanes)[k], lanes[k], now) && t !in lanes[k].jobs
      ensures clean ==> AttemptsKept(old(ledger.jobs), ledger.jobs) && RetryingWith(t, old(entries)[t].job.attempts)
      ensures SameJobs(old(entries), entries)
    {
      hide Inv, Good, BacksOff, Delay, DueIn, PutOnTimer, RetryingWith, CountMoved, OneEntry, SameJobs, AttemptsKept;
      Unchanged(entries, lanes, ledger.jobs);
      var popped := PopHead(k);
      OutOfLane(k, t);
      var failures := lanes[k].loadFailures + 1;
      var delay := Backoff(failures);
      Note(k, lanes[k].(loadFailures := failures, blockedUntil := now + delay), multiset{t});
      var clock: int := *;
      RetryLater(t, error, None, Some(delay), clock);
      if entries != old(entries) { OneEntryIsSameJobs(old(entries), entries, t); }
      if clean { SameCount(old(ledger.jobs), ledger.jobs, old(entries)[t].job); }
    }

    /** A cell answered a load with something else: the head job waits, at the same attempt. */
    method SetAside(k: nat, t: Ticket, error: string)
      requires Inv(multiset{}) && AtHead(k, t)
      modifies this`entries, this`requested, this`denied, this`lanes, this`retry, this`refused, ledger`jobs, ledger`reservations
      ensures Inv(multiset{}) && OneLane(old(lanes), lanes, k) && t !in lanes[k].jobs
      ensures lanes[k] == old(lanes)[k].(jobs := old(lanes)[k].jobs[1..])
      ensures clean ==> AttemptsKept(old(ledger.jobs), ledger.jobs) && RetryingWith(t, old(entries)[t].job.attempts)
      ensures SameJobs(old(entries), entries)
    {
      hide Inv, Good, DueIn, PutOnTimer, RetryingWith, CountMoved, OneEntry, SameJobs, AttemptsKept;
      Unchanged(entries, lanes, ledger.jobs);
      var popped := PopHead(k);
      OutOfLane(k, t);
      var clock: int := *;
      RetryLater(t, error, None, None, clock);
      if entries != old(entries) { OneEntryIsSameJobs(old(entries), entries, t); }
      if clean { SameCount(old(ledger.jobs), ledger.jobs, old(entries)[t].job); }
    }

    /** The lane is blocked for good: so is the job at its head. */
    method CondemnHead(k: nat, t: Ticket, error: string)
      requires Inv(multiset{}) && AtHead(k, t)
      modifies this`entries, this`requested, this`denied, this`lanes, this`delivered, this`refused, ledger`jobs, ledger`reservations
      ensures Inv(multiset{}) && OneLane(old(lanes), lanes, k) && t !in lanes[k].jobs
      ensures lanes[k] == old(lanes)[k].(jobs := old(lanes)[k].jobs[1..])
      ensures AttemptsKept(old(ledger.jobs), ledger.jobs)
      ensures SameJobs(old(entries), entries)
    {
      hide Inv, Good, Accounted;
      var popped := PopHead(k);
      OutOfLane(k, t);
      Condemn(t, error);
    }

    /** A load failed: poisoned cells are recycled, permanent failures block the lane, and transient
        ones back it off. No attempt is spent. */
    method LoadFailed(c: X.CellId, k: nat, t: Ticket, r: X.LoadReply, state: X.Pass) returns (outcome: Outcome)
      requires Inv(multiset{}) && Running(state) && AtHead(k, t) && r.Refused? && c in bank.device && c !in bank.busy
      modifies this`entries, this`requested, this`denied, this`lanes, this`retry
      modifies this`delivered, this`refused, ledger`jobs, ledger`reservations
      modifies policy, bank`child, bank`resident, bank`busy, bank`recycles
      ensures Inv(multiset{}) && Running(state) && bank.busy == old(bank.busy) && OneLane(old(lanes), lanes, k)
      ensures outcome == (if r.kind == C.Contaminating then Lost else Gone)
      ensures r.kind == C.Contaminating ==> lanes == old(lanes) && entries == old(entries) && c !in bank.resident
      ensures r.kind == C.Permanent ==> lanes[k].jobs == [] && lanes[k].blockedReason.Some?
      ensures r.kind == C.Transient ==> BackedOff(old(lanes)[k], lanes[k], state.now)
      ensures r.kind == C.Transient && clean ==> RetryingWith(t, old(entries)[t].job.attempts)
      ensures outcome == Gone ==> t !in lanes[k].jobs
      ensures outcome == Gone ==> Vacated(old(lanes)[k], lanes[k], state.now)
      ensures outcome == Gone && clean && !Shut(lanes[k]) ==> RetryingWith(t, old(entries)[t].job.attempts)
      ensures clean ==> AttemptsKept(old(ledger.jobs), ledger.jobs)
      ensures SameJobs(old(entries), entries)
    {
      hide Inv, Good, Accounted, BackedOff, SameJobs, AttemptsKept, RetryingWith;
      Unchanged(entries, lanes, ledger.jobs);
      if r.memoryPressure { policy.RecordMemoryPressure(lanes[k].digest); }
      match r.kind {
        case Contaminating =>
          bank.Recycle(c, state);
          return Lost;
        case Permanent =>
          BlockLane(k, r.code, r.error);
          return Gone;
        case Transient =>
          BackOffLane(k, t, r.code + ": " + r.error, state.now);
          return Gone;
      }
    }

    /** Ask a cell for an admitted load. */
    method AskLoad(c: X.CellId, digest: string, estimate: int, admission: R.Admission, waiting: X.Waiting, state: X.Pass)
      returns (r: X.LoadReply)
      requires Running(state) && c in bank.device && c in state.free && c !in bank.busy && digest !in R.Get(bank.resident, c, map[])
      requires admission.required >= estimate
      requires bank.device[c] in bank.rated && bank.device[c] !in bank.excused ==>
        bank.Fits(bank.device[c], X.DeviceMib(bank.ids, bank.device, bank.resident, bank.device[c]) + admission.required)
      requires bank.device[c] in state.loadsLeft && state.loadsLeft[bank.device[c]] > 0
      modifies policy, bank`child, bank`resident, bank`busy, bank`recycles, bank`context, bank`excused
      modifies state`free, state`loadsLeft, state`loadsSent
      ensures Running(state) && bank.busy == old(bank.busy) && state.free.Keys == old(state.free).Keys
      ensures r.Ready? ==> c in bank.resident && digest in bank.resident[c]
      ensures r.NoReply? ==> c !in bank.resident
    {
      hide X.DeviceMib, R.Policy.Valid;
      r := bank.Load(c, digest, estimate, admission, waiting, policy, state, loadConcurrency);
    }

    /** Load the lane's model into the cell. */
    method LoadInto(c: X.CellId, k: nat, t: Ticket, estimate: int, admission: R.Admission, state: X.Pass) returns (outcome: Outcome)
      requires Inv(multiset{}) && Running(state) && AtHead(k, t)
      requires c in bank.device && c in state.free && c !in bank.busy && lanes[k].digest !in R.Get(bank.resident, c, map[])
      requires admission.required >= estimate
      requires bank.device[c] in bank.rated && bank.device[c] !in bank.excused ==>
        bank.Fits(bank.device[c], X.DeviceMib(bank.ids, bank.device, bank.resident, bank.device[c]) + admission.required)
      requires bank.device[c] in state.loadsLeft && state.loadsLeft[bank.device[c]] > 0
      modifies this`entries, this`requested, this`denied, this`lanes, this`retry
      modifies this`delivered, this`refused, ledger`jobs, ledger`reservations
      modifies policy, bank`child, bank`resident, bank`busy, bank`recycles, bank`context, bank`excused
      modifies state`free, state`loadsLeft, state`loadsSent
      ensures Inv(multiset{}) && Running(state) && bank.busy == old(bank.busy) && state.free.Keys == old(state.free).Keys
      ensures OneLane(old(lanes), lanes, k) && SameJobs(old(entries), entries)
      ensures outcome == Resident ==> c in bank.resident && lanes[k].digest in bank.resident[c]
      ensures outcome in {Resident, Lost} ==> entries == old(entries) && lanes[k].jobs == old(lanes)[k].jobs
      ensures outcome == Resident ==> lanes[k] == old(lanes)[k].(burst := |old(lanes)[k].jobs|, loadFailures := 0, blockedUntil := 0)
      ensures outcome == Lost ==> lanes == old(lanes) && c !in bank.resident
      ensures outcome != Deferred
      ensures outcome == Gone ==> t !in lanes[k].jobs
      ensures outcome == Gone ==> Vacated(old(lanes)[k], lanes[k], state.now)
      ensures outcome == Gone && clean && !Shut(lanes[k]) ==> RetryingWith(t, old(entries)[t].job.attempts)
      ensures clean ==> AttemptsKept(old(ledger.jobs), ledger.jobs)
    {
      hide Inv, Good, Accounted, Running, BackedOff, SameJobs, AttemptsKept, RetryingWith, X.DeviceMib;
      Unchanged(entries, lanes, ledger.jobs);
      var digest := lanes[k].digest;
      var r := AskLoad(c, digest, estimate, admission, Demand(lanes[k], entries), state);
      match r {
        case NoReply =>
          return Lost;
        case Refused(_, _, _, _) =>
          outcome := LoadFailed(c, k, t, r, state);
        case Unexpected =>
          SetAside(k, t, "UNEXPECTED_REPLY");
          return Gone;
        case Ready(_, _, _) =>
          Note(k, lanes[k].(burst := |lanes[k].jobs|, loadFailures := 0, blockedUntil := 0), multiset{});
          return Resident;
      }
    }

    /** A model so large does not fit the cell now, evictions or not. */
    ghost predicate NoRoom(c: X.CellId, digest: string, estimate: int, state: X.Pass)
      reads bank`resident, bank`context, policy, state`free, state`total
    {
      (forall o :: o in bank.ids ==> o in bank.device) && policy.Valid() && c in bank.device && c in state.free && c in state.total &&
      policy.Admit(digest, estimate, state.free[c], state.total[c],
                   X.DeviceMib(bank.ids, bank.device, bank.resident, bank.device[c]),
                   X.DeviceContext(bank.ids, bank.device, bank.context, bank.device[c])).reason == R.NeedsEviction
    }

    /** Find room for a staged model and load it. */
    method Bring(c: X.CellId, k: nat, t: Ticket, estimate: int, state: X.Pass) returns (outcome: Outcome)
      requires Inv(multiset{}) && Running(state) && AtHead(k, t)
      requires c in bank.device && c !in bank.busy && lanes[k].digest !in R.Get(bank.resident, c, map[])
      requires c in state.free && bank.device[c] in state.loadsLeft && state.loadsLeft[bank.device[c]] > 0
      modifies this`entries, this`requested, this`denied, this`lanes, this`retry
      modifies this`delivered, this`refused, ledger`jobs, ledger`reservations
      modifies policy, bank`child, bank`resident, bank`busy, bank`recycles, bank`context, bank`excused, bank`evictions
      modifies state`free, state`loadsLeft, state`loadsSent
      ensures Inv(multiset{}) && Running(state) && bank.busy == old(bank.busy) && state.free.Keys == old(state.free).Keys
      ensures OneLane(old(lanes), lanes, k) && SameJobs(old(entries), entries)
      ensures outcome == Resident ==> c in bank.resident && lanes[k].digest in bank.resident[c]
      ensures outcome in {Resident, Deferred, Lost} ==> entries == old(entries) && lanes[k].jobs == old(lanes)[k].jobs
      ensures outcome == Gone ==> t !in lanes[k].jobs
      ensures outcome == Gone ==> Vacated(old(lanes)[k], lanes[k], state.now)
      ensures outcome == Gone && clean && !Shut(lanes[k]) ==> RetryingWith(t, old(entries)[t].job.attempts)
      ensures outcome == Deferred ==> NoRoom(c, lanes[k].digest, estimate, state)
      ensures outcome == Lost ==> c !in bank.resident
      ensures clean ==> AttemptsKept(old(ledger.jobs), ledger.jobs)
    {
      hide Inv, Good, X.CellBank.Sound, X.CellBank.Fits, X.DeviceMib, R.Policy.Valid, SameJobs, OneLane, AttemptsKept;
      Unchanged(entries, lanes, ledger.jobs);
      ghost var first: R.Admission, e: X.Eviction;
      var usable: bool, admission: R.Admission;
      usable, admission, first, e :=
        bank.MakeRoom(c, lanes[k].digest, estimate, Backlog(lanes, entries), Leases(lanes), policy, reclaimRatio, state.now, state);
      if !usable { return Lost; }
      if !admission.admitted && admission.reason == R.OverBudget {
        BlockLane(k, "MODEL_OVER_BUDGET", lanes[k].digest);
        return Gone;
      }
      if !admission.admitted {
        BankIsValid(state);
        return Deferred;
      }
      outcome := LoadInto(c, k, t, estimate, admission, state);
    }

    /** Bring a lane's model onto a cell, or say why not. A job this finishes with has left the lane. */
    method EnsureResident(c: X.CellId, k: nat, t: Ticket, state: X.Pass) returns (outcome: Outcome)
      requires Inv(multiset{}) && Running(state) && AtHead(k, t)
      requires c in bank.device && c !in bank.busy && c in state.free
      modifies this`entries, this`requested, this`denied, this`lanes, this`retry
      modifies this`delivered, this`refused, ledger`jobs, ledger`reservations
      modifies policy, bank`child, bank`resident, bank`busy, bank`recycles, bank`context, bank`excused, bank`evictions
      modifies state`free, state`loadsLeft, state`loadsSent
      ensures Inv(multiset{}) && Running(state) && bank.busy == old(bank.busy) && state.free.Keys == old(state.free).Keys
      ensures OneLane(old(lanes), lanes, k) && SameJobs(old(entries), entries)
      ensures outcome == Resident ==> c in bank.resident && lanes[k].digest in bank.resident[c]
      ensures outcome == Lost ==> c !in bank.resident
      ensures outcome in {Resident, Deferred, Lost} ==> entries == old(entries) && lanes[k].jobs == old(lanes)[k].jobs
      ensures outcome == Gone ==> t !in lanes[k].jobs
      ensures outcome == Gone ==> Vacated(old(lanes)[k], lanes[k], state.now)
      ensures outcome == Gone && clean && !Shut(lanes[k]) && old(lanes)[k].blockedReason.None? ==>
        RetryingWith(t, old(entries)[t].job.attempts)
      ensures outcome == Deferred ==>
        || old(lanes)[k].blockedUntil > state.now || R.Get(old(state.loadsLeft), bank.device[c], 0) <= 0
        || exists estimate :: NoRoom(c, lanes[k].digest, estimate, state)
      ensures clean ==> AttemptsKept(old(ledger.jobs), ledger.jobs)
      ensures var lane, held := old(lanes)[k], old(lanes)[k].digest in R.Get(old(bank.resident), c, map[]);
              && (held ==> outcome == Resident && lanes == old(lanes))
              && (!held && lane.blockedReason.Some? ==> outcome == Gone && lanes[k] == lane.(jobs := lane.jobs[1..]))
              && (!held && lane.blockedReason.None? && (lane.blockedUntil > state.now || R.Get(old(state.loadsLeft), bank.device[c], 0) <= 0)
                  ==> outcome == Deferred && lanes == old(lanes))
    {
      hide Inv, Good, Accounted, Running;
      var lane := lanes[k];
      if lane.digest in R.Get(bank.resident, c, map[]) { return Resident; }
      if lane.blockedReason.Some? {
        CondemnHead(k, t, lane.blockedReason.value);
        return Gone;
      }
      if lane.blockedUntil > state.now { return Deferred; }
      if R.Get(state.loadsLeft, bank.device[c], 0) <= 0 { return Deferred; }
      var bundle: Bundle := *;
      match bundle {
        case Unreadable(error) =>
          BlockLane(k, "BUNDLE_INVALID", error);
          return Gone;
        case NotStaged =>
          BackOffLane(k, t, "MODEL_NOT_STAGED: " + lane.digest, state.now);
          return Gone;
        case Staged(estimate) =>
          outcome := Bring(c, k, t, estimate, state);
      }
    }

    // -- one pass --------------------------------------------------------------------------------

    /** Sort the lanes that have jobs by how this cell should try them. */
    method RankedLanes(c: X.CellId, now: int) returns (order: seq<nat>)
      ensures InTurn(order, lanes, entries, R.Get(bank.resident, c, map[]).Keys, now, hotTtl)
    {
      var held := R.Get(bank.resident, c, map[]).Keys;
      LaneRanksAreTotal();
      var ranks := set k | 0 <= k < |lanes| && lanes[k].jobs != [] :: Weigh(lanes, k, entries, held, now, hotTtl);
      var ranked := OrderBy(LaneLess, ranks);
      assert forall i :: 0 <= i < |ranked| ==> ranked[i] in ranks;
      order := seq(|ranked|, i requires 0 <= i < |ranked| => ranked[i].3);
      forall k | 0 <= k < |lanes| && lanes[k].jobs != [] ensures k in order {
        assert Weigh(lanes, k, entries, held, now, hotTtl) in ranked;
        var i :| 0 <= i < |ranked| && ranked[i] == Weigh(lanes, k, entries, held, now, hotTtl);
        assert order[i] == k;
      }
    }

    /** The head job of a lane is refused and dropped. */
    method DropHead(k: nat)
      requires Inv(multiset{}) && k < |lanes| && lanes[k].jobs != [] && lanes[k].jobs[0] in denied
      modifies this`lanes, this`refused
      ensures Inv(multiset{}) && OneLane(old(lanes), lanes, k)
    {
      hide Good, Accounted;
      var t := PopHead(k);
      Alone(t);
      Drop(t, multiset{});
    }

    /** Send the head job of a lane to a cell that holds its model. */
    method Launch(c: X.CellId, k: nat, t: Ticket, state: X.Pass) returns (sent: bool)
      requires Inv(multiset{}) && bank.Sound(state) && AtHead(k, t) && entries[t].job.state == Inferencing
      requires entries[t].job.digest == lanes[k].digest
      requires c in bank.device && c !in bank.busy && c in state.free
      requires c in bank.resident && lanes[k].digest in bank.resident[c]
      modifies this`lanes, this`flying, bank`child, bank`resident, bank`busy, bank`recycles
      ensures Inv(multiset{}) && bank.Sound(state) && OneLane(old(lanes), lanes, k)
      ensures flying == if sent then old(flying) + multiset{t} else old(flying)
      ensures bank.busy.Keys == if sent then old(bank.busy).Keys + {c} else old(bank.busy).Keys
      ensures lanes[k].jobs == if sent then old(lanes)[k].jobs[1..] else old(lanes)[k].jobs
      ensures sent ==> c in bank.busy && bank.busy[c] == lanes[k].digest
      ensures !sent ==> c !in bank.resident
    {
      hide Inv, Good, X.CellBank.Sound;
      var popped := PopHead(k);
      sent := bank.Send(c, lanes[k].digest, state);
      Alone(t);
      if !sent {
        bank.Recycle(c, state);
        Requeue(k, t, true, multiset{});
      } else {
        Depart(c, k, t, state);
      }
    }

    /** The job in hand is on its way: its session was used, and its lane's burst shrinks. */
    method Depart(c: X.CellId, k: nat, t: Ticket, state: X.Pass)
      requires Inv(multiset{t}) && bank.Sound(state) && t in entries && entries[t].job.state == Inferencing
      requires k < |lanes| && c in bank.device && c in bank.resident && lanes[k].digest in bank.resident[c]
      modifies this`lanes, this`flying, bank`resident
      ensures Inv(multiset{}) && bank.Sound(state) && OneLane(old(lanes), lanes, k) && flying == old(flying) + multiset{t}
      ensures lanes[k].jobs == old(lanes)[k].jobs && lanes[k].burst == if old(lanes)[k].burst > 0 then old(lanes)[k].burst - 1 else old(lanes)[k].burst
    {
      hide Good, Accounted, X.CellBank.Sound;
      bank.Touch(c, lanes[k].digest, state, state.now);
      if lanes[k].burst > 0 { Note(k, lanes[k].(burst := lanes[k].burst - 1), multiset{t}); }
      Fly(t);
    }

    method Fly(t: Ticket)
      requires Inv(multiset{t}) && t in entries && entries[t].job.state == Inferencing
      modifies this`flying
      ensures Inv(multiset{}) && View() == Launched(old(View()), t)
    {
      LaunchGood(View(), ledger.jobs, clean, maxAttempts, t);
      flying := flying + multiset{t};
    }

    /** The claimed job with a session becomes INFERENCING, unless it already is. */
    method Begin(k: nat, t: Ticket) returns (ok: bool)
      requires Inv(multiset{}) && AtHead(k, t)
      modifies this`entries, this`requested, this`denied, ledger`jobs, ledger`reservations
      ensures Inv(multiset{}) && OneEntry(old(entries), entries, t) && AttemptsKept(old(ledger.jobs), ledger.jobs)
      ensures ok ==> entries[t].job.state == Inferencing
      ensures (!ok ==> t in denied) && (clean ==> ok)
    {
      hide Good, Accounted;
      AtHeadOf(View(), ledger.jobs, clean, maxAttempts, multiset{}, k);
      if entries[t].job.state == Inferencing { return true; }
      var moved := Transition(t, WaitingModel, Inferencing, NO_FIELDS, multiset{});
      return moved.Some?;
    }

    /** The models a cell is recorded to hold, and those of them it does hold. */
    ghost function Recorded(c: X.CellId): set<string>
      reads bank`resident
    {
      R.Get(bank.resident, c, map[]).Keys
    }

    ghost function Holding(c: X.CellId): set<string>
      requires c in bank.child
      reads bank`resident, bank`child
    {
      Recorded(c) * bank.child[c].held.sessions.Keys
    }

    /** Try to serve one lane's head job with one cell. */
    method TryLane(c: X.CellId, k: nat, state: X.Pass) returns (step: Step, t: Ticket)
      requires Inv(multiset{}) && Running(state) && k < |lanes| && lanes[k].jobs != []
      requires c in bank.device && c !in bank.busy && c in state.free
      modifies this`entries, this`requested, this`denied, this`lanes, this`retry, this`delivered, this`refused, this`flying
      modifies ledger`jobs, ledger`reservations
      modifies policy, bank`child, bank`resident, bank`busy, bank`recycles, bank`context, bank`excused, bank`evictions
      modifies state`free, state`loadsLeft, state`loadsSent
      ensures Inv(multiset{}) && Running(state) && state.free.Keys == old(state.free).Keys
      ensures OneLane(old(lanes), lanes, k) && SameJobs(old(entries), entries)
      ensures step == Dispatched ==> t in entries && entries[t].job.digest == lanes[k].digest
      ensures flying == if step == Dispatched then old(flying) + multiset{t} else old(flying)
      ensures bank.busy.Keys == if step == Dispatched then old(bank.busy).Keys + {c} else old(bank.busy).Keys
      ensures clean ==> AttemptsKept(old(ledger.jobs), ledger.jobs)
      ensures step == GiveUp ==> c !in bank.resident
      ensures clean && Runnable(old(lanes), old(entries), old(Recorded(c)), k) ==> step != NextLane
      ensures Served(step, c, k, old(lanes), lanes, bank.busy)
      ensures t == old(lanes)[k].jobs[0]
    {
      hide Good, Accounted, Running, OneLane, SameJobs, AttemptsKept;
      AtHeadOf(View(), ledger.jobs, clean, maxAttempts, multiset{}, k);
      t := lanes[k].jobs[0];
      var ok := Claim(t, multiset{});
      OneEntryIsSameJobs(old(entries), entries, t);
      if !ok {
        DropHead(k);
        return NextLane, t;
      }
      ghost var claimed, kept := entries, ledger.jobs;
      step := ServeClaimed(c, k, t, state);
      SameJobsCompose(old(entries), claimed, entries);
      SameTicket(old(entries), entries, old(lanes), lanes, k, t);
      if clean { KeptComposes(old(ledger.jobs), kept, ledger.jobs); }
    }

    /** Serve the claimed head job of a lane, once its model is resident. */
    method ServeClaimed(c: X.CellId, k: nat, t: Ticket, state: X.Pass) returns (step: Step)
      requires Inv(multiset{}) && Running(state) && AtHead(k, t) && entries[t].job.digest == lanes[k].digest
      requires c in bank.device && c !in bank.busy && c in state.free
      modifies this`entries, this`requested, this`denied, this`lanes, this`retry, this`delivered, this`refused, this`flying
      modifies ledger`jobs, ledger`reservations
      modifies policy, bank`child, bank`resident, bank`busy, bank`recycles, bank`context, bank`excused, bank`evictions
      modifies state`free, state`loadsLeft, state`loadsSent
      ensures Inv(multiset{}) && Running(state) && state.free.Keys == old(state.free).Keys
      ensures OneLane(old(lanes), lanes, k) && SameJobs(old(entries), entries)
      ensures flying == if step == Dispatched then old(flying) + multiset{t} else old(flying)
      ensures bank.busy.Keys == if step == Dispatched then old(bank.busy).Keys + {c} else old(bank.busy).Keys
      ensures clean ==> AttemptsKept(old(ledger.jobs), ledger.jobs)
      ensures step == GiveUp ==> c !in bank.resident
      ensures clean && old(lanes)[k].digest in R.Get(old(bank.resident), c, map[]) ==> step != NextLane
      ensures Served(step, c, k, old(lanes), lanes, bank.busy)
    {
      hide Inv, Good, Accounted, Running, X.CellBank.Sound, SameJobs, AttemptsKept, Served, OneLane;
      var outcome := EnsureResident(c, k, t, state);
      LaneKept(old(lanes), lanes, k);
      NotServed(c, k, old(lanes), lanes, bank.busy);
      if outcome == Lost { return GiveUp; }
      if outcome != Resident { return NextLane; }
      ghost var ready, kept, shelved := entries, ledger.jobs, lanes;
      step := BeginAndSend(c, k, t, state);
      SameJobsCompose(old(entries), ready, entries);
      OneLaneComposes(old(lanes), shelved, lanes, k);
      ServedSince(step, c, k, old(lanes), shelved, lanes, bank.busy);
      if clean { KeptComposes(old(ledger.jobs), kept, ledger.jobs); }
    }

    method BeginAndSend(c: X.CellId, k: nat, t: Ticket, state: X.Pass) returns (step: Step)
      requires Inv(multiset{}) && Running(state) && AtHead(k, t) && entries[t].job.digest == lanes[k].digest
      requires c in bank.device && c !in bank.busy && c in state.free
      requires c in bank.resident && lanes[k].digest in bank.resident[c]
      modifies this`entries, this`requested, this`denied, this`lanes, this`refused, this`flying, ledger`jobs, ledger`reservations
      modifies bank`child, bank`resident, bank`busy, bank`recycles
      ensures Inv(multiset{}) && Running(state)
      ensures OneLane(old(lanes), lanes, k) && SameJobs(old(entries), entries)
      ensures flying == if step == Dispatched then old(flying) + multiset{t} else old(flying)
      ensures bank.busy.Keys == if step == Dispatched then old(bank.busy).Keys + {c} else old(bank.busy).Keys
      ensures AttemptsKept(old(ledger.jobs), ledger.jobs)
      ensures (step == GiveUp ==> c !in bank.resident) && (clean ==> step != NextLane)
      ensures Served(step, c, k, old(lanes), lanes, bank.busy)
    {
      hide Good, Accounted, Running;
      var ok := Begin(k, t);
      if !ok {
        DropHead(k);
        return NextLane;
      }
      step := SendHead(c, k, t, state);
    }

    method SendHead(c: X.CellId, k: nat, t: Ticket, state: X.Pass) returns (step: Step)
      requires Inv(multiset{}) && Running(state) && AtHead(k, t) && entries[t].job.state == Inferencing
      requires entries[t].job.digest == lanes[k].digest
      requires c in bank.device && c !in bank.busy && c in state.free
      requires c in bank.resident && lanes[k].digest in bank.resident[c]
      modifies this`lanes, this`flying, bank`child, bank`resident, bank`busy, bank`recycles
      ensures Inv(multiset{}) && Running(state) && OneLane(old(lanes), lanes, k)
      ensures step in {Dispatched, GiveUp}
      ensures step == GiveUp ==> c !in bank.resident
      ensures flying == if step == Dispatched then old(flying) + multiset{t} else old(flying)
      ensures bank.busy.Keys == if step == Dispatched then old(bank.busy).Keys + {c} else old(bank.busy).Keys
      ensures Served(step, c, k, old(lanes), lanes, bank.busy)
    {
      hide Good, Accounted;
      var sent := Launch(c, k, t, state);
      return if sent then Dispatched else GiveUp;
    }

    /** A cell's turn has come. */
    ghost method Offer(c: X.CellId)
      requires Inv(multiset{})
      modifies this`offered
      ensures Inv(multiset{}) && offered == old(offered) + [c]
    {
      hide Good, Accounted, OnlyOwn;
      offered := offered + [c];
    }

    /** Offer a cell work, if there is any. */
    method DispatchOne(c: X.CellId, state: X.Pass) returns (sent: Option<Sent>)
      requires Inv(multiset{}) && Running(state) && c in bank.device && c !in bank.busy
      modifies this`entries, this`requested, this`denied, this`lanes, this`retry, this`offered, this`delivered, this`refused, this`flying
      modifies ledger`jobs, ledger`reservations
      modifies policy, bank`child, bank`resident, bank`busy, bank`recycles, bank`context, bank`excused, bank`evictions
      modifies state`free, state`total, state`loadsLeft, state`loadsSent
      ensures Inv(multiset{}) && Running(state)
      ensures SameDigests(old(lanes), lanes) && SameJobs(old(entries), entries)
      ensures sent.Some? ==> sent.value.cell == c && Awaited(View(), bank.busy.Keys, sent.value)
      ensures sent.Some? ==> var k := sent.value.lane; k < |old(lanes)| && old(lanes)[k].jobs != [] && old(lanes)[k].jobs[0] == sent.value.ticket
      ensures flying == if sent.Some? then old(flying) + multiset{sent.value.ticket} else old(flying)
      ensures bank.busy.Keys == if sent.Some? then old(bank.busy).Keys + {c} else old(bank.busy).Keys
      ensures clean ==> AttemptsKept(old(ledger.jobs), ledger.jobs)
      ensures offered == old(offered) + [c]
      ensures clean && c !in old(state.free) && sent.None? && AllRunnable(old(lanes), old(entries), old(Holding(c))) ==> c !in bank.resident
    {
      hide Inv, Good;
      Offer(c);
      if forall k :: 0 <= k < |lanes| ==> lanes[k].jobs == [] { return None; }
      sent := DispatchTo(c, state);
    }

    /** Read a cell's memory, rank the lanes for it, and serve the first that can be. */
    method DispatchTo(c: X.CellId, state: X.Pass) returns (sent: Option<Sent>)
      requires Inv(multiset{}) && Running(state) && c in bank.device && c !in bank.busy
      modifies this`entries, this`requested, this`denied, this`lanes, this`retry, this`delivered, this`refused, this`flying
      modifies ledger`jobs, ledger`reservations
      modifies policy, bank`child, bank`resident, bank`busy, bank`recycles, bank`context, bank`excused, bank`evictions
      modifies state`free, state`total, state`loadsLeft, state`loadsSent
      ensures Inv(multiset{}) && Running(state)
      ensures SameDigests(old(lanes), lanes) && SameJobs(old(entries), entries)
      ensures sent.Some? ==> sent.value.cell == c && Awaited(View(), bank.busy.Keys, sent.value)
      ensures sent.Some? ==> var k := sent.value.lane; k < |old(lanes)| && old(lanes)[k].jobs != [] && old(lanes)[k].jobs[0] == sent.value.ticket
      ensures flying == if sent.Some? then old(flying) + multiset{sent.value.ticket} else old(flying)
      ensures bank.busy.Keys == if sent.Some? then old(bank.busy).Keys + {c} else old(bank.busy).Keys
      ensures clean ==> AttemptsKept(old(ledger.jobs), ledger.jobs)
      ensures clean && c !in old(state.free) && sent.None? && AllRunnable(old(lanes), old(entries), old(Holding(c))) ==> c !in bank.resident
    {
      hide Inv, Good, AllRunnable, Runnable;
      ghost var could := Holding(c);
      var ok := bank.Memory(c, state);
      if !ok { return None; }
      var order := RankedLanes(c, state.now);
      PreferredFirst(order, lanes, entries, R.Get(bank.resident, c, map[]).Keys, state.now, hotTtl);
      if c !in old(state.free) && AllRunnable(lanes, entries, could) {
        FirstIsRunnable(order, lanes, entries, could, state.now, hotTtl);
      }
      sent := ServeFirst(c, order, state);
    }

    /** Try the lanes in order until one is served or the cell is lost. Each still has its head job
        when its turn comes. */
    method ServeFirst(c: X.CellId, order: seq<nat>, state: X.Pass) returns (sent: Option<Sent>)
      requires Inv(multiset{}) && Running(state) && c in bank.device && c !in bank.busy && c in state.free
      requires forall i :: 0 <= i < |order| ==> order[i] < |lanes| && lanes[order[i]].jobs != []
      requires forall i, j :: 0 <= i < j < |order| ==> order[i] != order[j]
      modifies this`entries, this`requested, this`denied, this`lanes, this`retry, this`delivered, this`refused, this`flying
      modifies ledger`jobs, ledger`reservations
      modifies policy, bank`child, bank`resident, bank`busy, bank`recycles, bank`context, bank`excused, bank`evictions
      modifies state`free, state`loadsLeft, state`loadsSent
      ensures Inv(multiset{}) && Running(state)
      ensures SameDigests(old(lanes), lanes) && SameJobs(old(entries), entries)
      ensures sent.Some? ==> sent.value.cell == c && Awaited(View(), bank.busy.Keys, sent.value)
      ensures sent.Some? ==> WasNext(sent.value, order, old(lanes), lanes)
      ensures flying == if sent.Some? then old(flying) + multiset{sent.value.ticket} else old(flying)
      ensures bank.busy.Keys == if sent.Some? then old(bank.busy).Keys + {c} else old(bank.busy).Keys
      ensures clean ==> AttemptsKept(old(ledger.jobs), ledger.jobs)
      ensures clean && sent.None? && order != [] && Runnable(old(lanes), old(entries), old(Recorded(c)), order[0]) ==> c !in bank.resident
    {
      hide Inv, Good, Accounted, Running, Runnable;
      var i := 0;
      while i < |order|
        invariant i <= |order| && Inv(multiset{}) && Running(state) && c in state.free
        invariant SameDigests(old(lanes), lanes) && SameJobs(old(entries), entries)
        invariant forall j :: i <= j < |order| ==> order[j] < |lanes| && lanes[order[j]] == old(lanes)[order[j]]
        invariant flying == old(flying) && bank.busy.Keys == old(bank.busy).Keys
        invariant clean ==> AttemptsKept(old(ledger.jobs), ledger.jobs)
        invariant i == 0 ==> lanes == old(lanes) && entries == old(entries) && Recorded(c) == old(Recorded(c))
        invariant i > 0 ==> !clean || !Runnable(old(lanes), old(entries), old(Recorded(c)), order[0])
      {
        var step, t := TryLane(c, order[i], state);
        if step == Dispatched { return Some(Sent(c, order[i], t)); }
        if step == GiveUp { return None; }
        i := i + 1;
      }
      return None;
    }

    /** The job in hand goes back to the front of its lane; durably it never stopped being inferred. */
    method PutBack(k: nat, t: Ticket, error: string)
      requires Inv(multiset{t}) && t in entries && entries[t].job.state == Inferencing
      requires k < |lanes| && lanes[k].digest == entries[t].job.digest
      modifies this`entries, this`requested, this`denied, this`lanes, ledger`jobs, ledger`reservations
      ensures Inv(multiset{}) && OneEntry(old(entries), entries, t) && OneLane(old(lanes), lanes, k)
      ensures PutInFront(t, k, old(View()), View()) && entries[t].job.state == Inferencing
      ensures entries[t].job.attempts == old(entries)[t].job.attempts && AttemptsKept(old(ledger.jobs), ledger.jobs)
    {
      hide Good, Accounted;
      InHand(View(), ledger.jobs, clean, maxAttempts, multiset{t}, t);
      CopyIsCurrent(t, multiset{t});
      var same := Transition(t, Inferencing, Inferencing, WithError(error), multiset{t});
      Alone(t);
      Requeue(k, t, true, multiset{});
    }

    /** The inference of the job in hand succeeded. */
    ghost method Answer(t: Ticket)
      requires Inv(multiset{t}) && t in entries
      modifies this`answered
      ensures Inv(multiset{t}) && answered == old(answered) + {t} && Settled(entries, answered, t)
    {
      hide Good, OnlyOwn;
      answered := answered + {t};
    }

    /** Record one answer and hand it on. */
    method Apply(c: X.CellId, k: nat, t: Ticket, answer: C.Answer, state: X.Pass)
      requires Inv(multiset{t}) && bank.Sound(state) && c in bank.device
      requires t in entries && entries[t].job.state == Inferencing
      requires k < |lanes| && lanes[k].digest == entries[t].job.digest
      modifies this`entries, this`requested, this`denied, this`lanes, this`retry
      modifies this`delivered, this`answered, this`refused, ledger`jobs, ledger`reservations
      modifies bank`child, bank`resident, bank`busy, bank`recycles
      ensures Inv(multiset{}) && bank.Sound(state) && SameJobs(old(entries), entries) && SameDigests(old(lanes), lanes)
      ensures bank.busy == if answer.Failed? && answer.kind == C.Contaminating then old(bank.busy) - {c} else old(bank.busy)
      ensures Fate(t, k, X.Got(answer, true), old(View()), View(), maxAttempts)
      ensures if answer.Failed? && answer.kind == C.Transient then AttemptSpent(old(ledger.jobs), ledger.jobs, old(entries)[t].job.id)
              else AttemptsKept(old(ledger.jobs), ledger.jobs)
    {
      hide Inv, Good, X.CellBank.Sound, OneEntry, SameJobs, OneLane, SameDigests, AttemptsKept, AttemptSpent, HandedOn, Fate;
      ghost var before := View();
      Unchanged(entries, lanes, ledger.jobs);
      match answer {
        case Succeeded =>
          Answer(t);
          Notify(t);
          Handed(t, before, View());
          FateSuccess(t, k, X.Got(answer, true), before, View(), maxAttempts);
          Coarsen(old(entries), entries, old(lanes), lanes, t, k);
        case Failed(detail, kind) =>
          match kind {
            case Contaminating =>
              bank.Recycle(c, state);
              PutBack(k, t, detail);
              FateBack(t, k, X.Got(answer, true), before, View(), maxAttempts);
              Coarsen(old(entries), entries, old(lanes), lanes, t, k);
            case Permanent =>
              Fail(t, detail);
              FateVerdict(t, k, X.Got(answer, true), before, View(), maxAttempts);
              Coarsen(old(entries), entries, old(lanes), lanes, t, k);
            case Transient =>
              Attempted(k, t, detail);
          }
      }
    }

    /** The attempt failed for a passing reason: another follows after a backoff, unless it was the last. */
    method Attempted(k: nat, t: Ticket, detail: string)
      requires Inv(multiset{t}) && t in entries && entries[t].job.state == Inferencing
      modifies this`entries, this`requested, this`denied, this`retry, this`delivered, this`refused, ledger`jobs, ledger`reservations
      ensures Inv(multiset{}) && SameJobs(old(entries), entries) && SameDigests(old(lanes), lanes)
      ensures Fate(t, k, X.Got(C.Failed(detail, C.Transient), true), old(View()), View(), maxAttempts)
      ensures AttemptSpent(old(ledger.jobs), ledger.jobs, old(entries)[t].job.id)
    {
      hide Inv, Good, OneEntry, SameJobs, AttemptsKept, AttemptSpent, PutOnTimer, HandedOn, Fate;
      ghost var before, r := View(), X.Got(C.Failed(detail, C.Transient), true);
      Unchanged(entries, lanes, ledger.jobs);
      var attempts := entries[t].job.attempts + 1;
      if attempts >= maxAttempts {
        Spend(t, detail, attempts);
        FateVerdict(t, k, r, before, View(), maxAttempts);
      } else {
        var clock: int := *;
        RetryLater(t, detail, Some(attempts), None, clock);
        FateTimer(t, k, r, before, View(), maxAttempts);
      }
      Coarsen(old(entries), entries, old(lanes), lanes, t, k);
    }

    /** The job failed for good. */
    method Fail(t: Ticket, detail: string)
      requires Inv(multiset{t}) && t in entries && entries[t].job.state == Inferencing
      modifies this`entries, this`requested, this`denied, this`delivered, this`refused, ledger`jobs, ledger`reservations
      ensures Inv(multiset{}) && OneEntry(old(entries), entries, t)
      ensures HandedOn(t, old(View()), View()) && refused == old(refused)
      ensures entries[t].job.state == ProcessingExhausted && entries[t].job.attempts == old(entries)[t].job.attempts
      ensures AttemptsKept(old(ledger.jobs), ledger.jobs)
    {
      hide Good, Accounted;
      var recorded := Exhaust(t, detail, None);
      Settle(t, recorded);
    }

    /** The last attempt is spent. */
    method Spend(t: Ticket, detail: string, attempts: int)
      requires Inv(multiset{t}) && t in entries && entries[t].job.state == Inferencing
      requires attempts == entries[t].job.attempts + 1
      modifies this`entries, this`requested, this`denied, this`delivered, this`refused, ledger`jobs, ledger`reservations
      ensures Inv(multiset{}) && OneEntry(old(entries), entries, t)
      ensures HandedOn(t, old(View()), View()) && refused == old(refused)
      ensures entries[t].job.state == ProcessingExhausted && entries[t].job.attempts == attempts
      ensures AttemptSpent(old(ledger.jobs), ledger.jobs, old(entries)[t].job.id)
    {
      hide Good, Accounted;
      var recorded := Exhaust(t, detail, Some(attempts));
      Settle(t, recorded);
    }

    /** Take a job that was in flight back in hand. */
    method Land(t: Ticket)
      requires Inv(multiset{}) && t in flying
      modifies this`flying
      ensures Inv(multiset{t}) && View() == Landed(old(View()), t)
      ensures t in entries && entries[t].job.state == Inferencing
    {
      LandGood(View(), ledger.jobs, clean, maxAttempts, t);
      flying := flying - multiset{t};
    }

    /** The job lands, with its cell's answer or without one, and the reply decides what becomes of it. */
    method Collect(p: Sent, state: X.Pass) returns (ghost r: X.Collected)
      requires Inv(multiset{}) && bank.Sound(state) && Awaited(View(), bank.busy.Keys, p) && p.cell in bank.device
      modifies this`entries, this`requested, this`denied, this`lanes, this`retry, this`delivered, this`answered, this`refused, this`flying
      modifies ledger`jobs, ledger`reservations, bank`child, bank`resident, bank`busy, bank`heard, bank`recycles
      ensures Inv(multiset{}) && bank.Sound(state) && SameJobs(old(entries), entries) && SameDigests(old(lanes), lanes)
      ensures flying == old(flying) - multiset{p.ticket} && bank.busy.Keys == old(bank.busy).Keys - {p.cell}
      ensures bank.heard == old(bank.heard) + [(p.cell, r)] && Fate(p.ticket, p.lane, r, old(View()), View(), maxAttempts)
      ensures SpentBy(old(ledger.jobs), ledger.jobs, Spender(r, old(entries)[p.ticket].job.id))
    {
      hide Inv, Good, X.CellBank.Sound, OneEntry, SameJobs, OneLane, SameDigests, AttemptsKept, AttemptSpent, SpentBy, Fate, PutInFront;
      ghost var before := View();
      var reply := bank.Receive(p.cell, state);
      r := reply;
      Land(p.ticket);
      match reply {
        case Lost =>
          bank.Recycle(p.cell, state);
          GoBack(p, reply, "LOST");
        case Odd =>
          GoBack(p, reply, "UNEXPECTED_REPLY");
        case Got(answer, _) =>
          Apply(p.cell, p.lane, p.ticket, answer, state);
      }
      FateOfLanded(p.ticket, p.lane, r, before, View(), maxAttempts);
      OneSpender(old(ledger.jobs), ledger.jobs, r, old(entries)[p.ticket].job.id);
    }

    /** A job without a usable reply goes back to the front of its lane. */
    method GoBack(p: Sent, r: X.Collected, error: string)
      requires Inv(multiset{p.ticket}) && p.ticket in entries && entries[p.ticket].job.state == Inferencing
      requires p.lane < |lanes| && lanes[p.lane].digest == entries[p.ticket].job.digest && (r.Lost? || r.Odd?)
      modifies this`entries, this`requested, this`denied, this`lanes, ledger`jobs, ledger`reservations
      ensures Inv(multiset{}) && SameJobs(old(entries), entries) && SameDigests(old(lanes), lanes)
      ensures Fate(p.ticket, p.lane, r, old(View()), View(), maxAttempts) && AttemptsKept(old(ledger.jobs), ledger.jobs)
    {
      hide Inv, Good, OneEntry, SameJobs, OneLane, SameDigests, AttemptsKept, Fate;
      ghost var before := View();
      PutBack(p.lane, p.ticket, error);
      FateBack(p.ticket, p.lane, r, before, View(), maxAttempts);
      Coarsen(old(entries), entries, old(lanes), lanes, p.ticket, p.lane);
    }

    /** Offer every live cell one job. */
    method DispatchAll(cells: seq<X.CellId>, state: X.Pass) returns (pending: seq<Sent>)
      requires Inv(multiset{}) && Running(state) && flying == multiset{} && bank.busy == map[]
      requires X.Distinct(cells) && forall c :: c in cells ==> c in bank.device
      modifies this`entries, this`requested, this`denied, this`lanes, this`retry, this`offered, this`delivered, this`refused, this`flying
      modifies ledger`jobs, ledger`reservations
      modifies policy, bank`child, bank`resident, bank`busy, bank`recycles, bank`context, bank`excused, bank`evictions
      modifies state`free, state`total, state`loadsLeft, state`loadsSent
      ensures Inv(multiset{}) && Running(state) && AllAwaited(View(), bank.busy.Keys, pending)
      ensures offered == old(offered) + cells
      ensures clean ==> AttemptsKept(old(ledger.jobs), ledger.jobs)
    {
      hide Inv, Good, Running, AllAwaited, Awaited, AllRunnable, AttemptsKept, SameJobs, SameDigests;
      NothingAwaited(View());
      Unchanged(entries, lanes, ledger.jobs);
      assert bank.busy.Keys == {};
      pending := [];
      var i := 0;
      while i < |cells|
        invariant i <= |cells| && Inv(multiset{}) && Running(state) && AllAwaited(View(), bank.busy.Keys, pending)
        invariant forall j :: i <= j < |cells| ==> cells[j] !in bank.busy
        invariant offered == old(offered) + cells[..i]
        invariant clean ==> AttemptsKept(old(ledger.jobs), ledger.jobs)
      {
        ghost var before, busy, jobs := View(), bank.busy.Keys, ledger.jobs;
        var sent := DispatchOne(cells[i], state);
        if clean { KeptComposes(old(ledger.jobs), jobs, ledger.jobs); }
        if sent.Some? {
          OneMoreAwaited(before, View(), busy, pending, sent.value);
          pending := pending + [sent.value];
        } else {
          StillAwaited(before, View(), busy, pending);
        }
        i := i + 1;
      }
      assert cells[..|cells|] == cells;
    }

    /** Collect the first of the dispatched jobs. */
    method CollectFirst(pending: seq<Sent>, state: X.Pass) returns (ghost r: X.Collected)
      requires Inv(multiset{}) && bank.Sound(state) && AllAwaited(View(), bank.busy.Keys, pending) && pending != []
      modifies this`entries, this`requested, this`denied, this`lanes, this`retry, this`delivered, this`answered, this`refused, this`flying
      modifies ledger`jobs, ledger`reservations, bank`child, bank`resident, bank`busy, bank`heard, bank`recycles
      ensures Inv(multiset{}) && bank.Sound(state) && AllAwaited(View(), bank.busy.Keys, pending[1..])
      ensures bank.heard == old(bank.heard) + [(pending[0].cell, r)]
      ensures Fate(pending[0].ticket, pending[0].lane, r, old(View()), View(), maxAttempts)
      ensures SpentBy(old(ledger.jobs), ledger.jobs, Spender(r, old(entries)[pending[0].ticket].job.id))
    {
      ghost var before, busy := View(), bank.busy.Keys;
      assert Awaited(before, busy, pending[0]);
      hide Inv, Good, Accounted, AllAwaited, Awaited, Fate, SpentBy;
      r := Collect(pending[0], state);
      OneFewerAwaited(before, View(), busy, pending);
    }

    /** Collect every dispatched job, in the order they were sent. Each ends where its reply sends it, and
        only the replies that say so cost an attempt. */
    method CollectAll(pending: seq<Sent>, state: X.Pass) returns (ghost replies: seq<X.Collected>)
      requires Inv(multiset{}) && bank.Sound(state) && AllAwaited(View(), bank.busy.Keys, pending)
      modifies this`entries, this`requested, this`denied, this`lanes, this`retry, this`delivered, this`answered, this`refused, this`flying
      modifies ledger`jobs, ledger`reservations, bank`child, bank`resident, bank`busy, bank`heard, bank`recycles
      ensures Inv(multiset{}) && bank.Sound(state) && AllAwaited(View(), bank.busy.Keys, [])
      ensures |replies| == |pending| && bank.heard == old(bank.heard) + Heard(pending, replies)
      ensures forall i :: 0 <= i < |pending| ==> Ended(pending[i], replies[i], old(View()), View(), maxAttempts)
      ensures SpentBy(old(ledger.jobs), ledger.jobs, Spenders(pending, replies, old(entries)))
    {
      hide Inv, Good, Accounted, AllAwaited, Fate, SpentBy, HalfCollected, DistinctJobs, Spenders, Heard;
      ghost var start := View();
      FlightsDiffer(pending);
      NoneCollected(pending, start, bank.busy.Keys, maxAttempts);
      NoneSpent(pending, entries, ledger.jobs);
      replies := [];
      NoneHeard(pending);
      assert pending[0..] == pending;
      var k := 0;
      while k < |pending|
        invariant k <= |pending| && |replies| == k && bank.heard == old(bank.heard) + Heard(pending, replies)
        invariant Inv(multiset{}) && bank.Sound(state) && AllAwaited(View(), bank.busy.Keys, pending[k..])
        invariant HalfCollected(pending, replies, start, View(), maxAttempts)
        invariant SpentBy(old(ledger.jobs), ledger.jobs, Spenders(pending, replies, start.entries))
      {
        ghost var here, jobs := View(), ledger.jobs;
        NextIsKnown(pending, replies, start, here, maxAttempts);
        assert pending[k..][0] == pending[k] && pending[k..][1..] == pending[k + 1..];
        ghost var r := CollectFirst(pending[k..], state);
        OneMoreCollected(pending, replies, r, start, here, View(), maxAttempts);
        OneMoreReply(pending, replies, r, start.entries, start.entries[pending[k].ticket].job.id);
        SpendersCompose(old(ledger.jobs), jobs, ledger.jobs, Spenders(pending, replies, start.entries),
                        Spender(r, start.entries[pending[k].ticket].job.id));
        OneMoreHeard(pending, replies, r);
        replies := replies + [r];
        k := k + 1;
      }
      assert pending[|pending|..] == [];
      AllCollected(pending, replies, start, View(), maxAttempts);
    }

    lemma FlightsDiffer(pending: seq<Sent>)
      requires Inv(multiset{}) && AllAwaited(View(), bank.busy.Keys, pending)
      ensures DistinctJobs(pending, entries)
    {
      hide Good, Accounted, AllAwaited, DistinctJobs;
      FlightsAreDistinct(pending, View(), ledger.jobs, clean, maxAttempts, bank.busy.Keys);
    }

    static lemma NoneSpent(pending: seq<Sent>, entries: map<Ticket, Queued>, jobs: map<Id, Job>)
      ensures SpentBy(jobs, jobs, Spenders(pending, [], entries))
    {
    }

    static lemma NextIsKnown(pending: seq<Sent>, replies: seq<X.Collected>, start: Places, here: Places, max: int)
      requires HalfCollected(pending, replies, start, here, max) && |replies| < |pending|
      ensures var t := pending[|replies|].ticket; t in start.entries && t in here.entries && here.entries[t] == start.entries[t]
    {
    }

    static lemma AllCollected(pending: seq<Sent>, replies: seq<X.Collected>, start: Places, here: Places, max: int)
      requires HalfCollected(pending, replies, start, here, max)
      ensures forall i :: 0 <= i < |replies| ==> Ended(pending[i], replies[i], start, here, max)
    {
    }

    /** The cells whose process is alive, in supervisor order. */
    method LiveCells() returns (cells: seq<X.CellId>)
      requires bank.Valid()
      ensures EveryLiveCell(cells, bank.ids, bank.child)
    {
      cells := [];
      for i := 0 to |bank.ids|
        invariant X.Distinct(cells) && forall c :: c in cells <==> c in bank.ids[..i] && bank.child[c].alive
      {
        assert bank.ids[..i + 1] == bank.ids[..i] + [bank.ids[i]];
        assert bank.ids[i] !in bank.ids[..i];
        if bank.child[bank.ids[i]].alive { cells := cells + [bank.ids[i]]; }
      }
      assert bank.ids[..|bank.ids|] == bank.ids;
    }

    /** Give each device of the live cells its loads for this pass. */
    method AllowLoads(cells: seq<X.CellId>, state: X.Pass)
      requires Running(state) && (forall c :: c in cells ==> c in bank.device) && state.loadsSent == map[]
      modifies state`loadsLeft
      ensures Running(state)
      ensures forall c :: c in cells ==> bank.device[c] in state.loadsLeft
    {
      for i := 0 to |cells|
        invariant Running(state) && forall j :: 0 <= j < i ==> bank.device[cells[j]] in state.loadsLeft
      {
        if bank.device[cells[i]] !in state.loadsLeft {
          state.loadsLeft := state.loadsLeft[bank.device[cells[i]] := loadConcurrency];
        }
      }
    }

    /** What holds between passes. */
    ghost predicate Idle()
      reads this, ledger, bank, policy
    {
      && Inv(multiset{}) && flying == multiset{}
      && bank.Valid() && bank.Served() && bank.WithinBudget() && bank.busy == map[]
      && policy.Valid() && policy.cfg == bank.cfg
    }

    lemma NothingSent(before: map<Id, Job>)
      requires flying == multiset{} && AttemptsKept(before, ledger.jobs)
      ensures Heard([], []) == []
      ensures AllEnded(Round([], [], [], View())) && SpentBy(before, ledger.jobs, Spenders([], [], entries))
    {
      NothingAwaited(View());
    }

    /** What a pass sent out, where everything was then, and what came back. */
    ghost predicate AllEnded(round: Round)
      reads this
    {
      && |round.replies| == |round.pending| && AllAwaited(round.flown, CellsOf(round.pending), round.pending)
      && forall i :: 0 <= i < |round.pending| ==> Ended(round.pending[i], round.replies[i], round.flown, View(), maxAttempts)
    }

    /** One pass: take in what was submitted, promote due retries, give each live cell one job, and
        collect the answers. `sent` is how many loads each device was given. Every job sent out ends where
        its reply sends it. */
    method RunOnce(now: int) returns (dispatched: nat, ghost sent: map<X.Device, nat>, ghost round: Round)
      requires Idle()
      modifies this`entries, this`requested, this`denied, this`inbox, this`lanes, this`retry
      modifies this`offered, this`delivered, this`answered, this`refused, this`flying
      modifies ledger`jobs, ledger`reservations
      modifies policy, bank`child, bank`resident, bank`busy, bank`heard, bank`recycles, bank`context, bank`excused, bank`evictions
      ensures Idle() && inbox == []
      ensures dispatched == |round.pending| && AllEnded(round) && bank.heard == old(bank.heard) + Heard(round.pending, round.replies)
      ensures clean ==> SpentBy(old(ledger.jobs), ledger.jobs, Spenders(round.pending, round.replies, round.flown.entries))
      ensures forall dev :: R.Get(sent, dev, 0) <= R.Max(loadConcurrency, 0)
      ensures paused ==> dispatched == 0
      ensures offered == old(offered) + round.cells && (!paused ==> EveryLiveCell(round.cells, bank.ids, old(bank.child)))
    {
      hide Inv, Good, Running, Due, NotDue, SpentBy, AttemptsKept, AllEnded, Spenders, EveryLiveCell, Heard;
      hide R.Policy.Valid, X.CellBank.Valid, X.CellBank.WithinBudget, X.CellBank.Served, X.CellBank.Sound;
      var state := new X.Pass(now);
      var taken := DrainInbox(now);
      ghost var shelved := ledger.jobs;
      PromoteRetries(now);
      KeptComposes(old(ledger.jobs), shelved, ledger.jobs);
      ghost var jobs := ledger.jobs;
      NothingSent(old(ledger.jobs));
      round := Round([], [], [], View());
      sent := map[];
      if paused { return 0, sent, round; }
      PassBegins(state);
      dispatched, round := ServeLive(state);
      if clean { KeptThenSpent(old(ledger.jobs), jobs, ledger.jobs, Spenders(round.pending, round.replies, round.flown.entries)); }
      sent := state.loadsSent;
      PassEnds(state);
    }

    lemma PassBegins(state: X.Pass)
      requires bank.Valid() && bank.Served() && bank.WithinBudget() && policy.Valid() && policy.cfg == bank.cfg
      requires state.free == map[] && state.total == map[] && state.loadsLeft == map[] && state.loadsSent == map[]
      ensures Running(state)
    {
    }

    lemma PassEnds(state: X.Pass)
      requires Running(state)
      ensures bank.Valid() && bank.Served() && bank.WithinBudget() && policy.Valid() && policy.cfg == bank.cfg
      ensures forall dev :: R.Get(state.loadsSent, dev, 0) <= R.Max(loadConcurrency, 0)
    {
      forall dev ensures R.Get(state.loadsSent, dev, 0) <= R.Max(loadConcurrency, 0) {
        X.LoadsBounded(state, loadConcurrency, dev);
      }
    }

    /** Give every live cell one job, if it can be given one, and collect the answers. */
    method ServeLive(state: X.Pass) returns (dispatched: nat, ghost round: Round)
      requires Inv(multiset{}) && Running(state) && flying == multiset{} && bank.busy == map[] && state.loadsSent == map[]
      modifies this`entries, this`requested, this`denied, this`lanes, this`retry
      modifies this`offered, this`delivered, this`answered, this`refused, this`flying
      modifies ledger`jobs, ledger`reservations
      modifies policy, bank`child, bank`resident, bank`busy, bank`heard, bank`recycles, bank`context, bank`excused, bank`evictions
      modifies state`free, state`total, state`loadsLeft, state`loadsSent
      ensures Inv(multiset{}) && Running(state) && flying == multiset{} && bank.busy == map[]
      ensures offered == old(offered) + round.cells && EveryLiveCell(round.cells, bank.ids, old(bank.child))
      ensures dispatched == |round.pending| && AllEnded(round) && bank.heard == old(bank.heard) + Heard(round.pending, round.replies)
      ensures clean ==> SpentBy(old(ledger.jobs), ledger.jobs, Spenders(round.pending, round.replies, round.flown.entries))
    {
      hide Inv, Good, Running, X.CellBank.Sound, SpentBy, AttemptsKept, AllEnded, Spenders, EveryLiveCell, Heard;
      NothingKept(ledger.jobs);
      NothingSent(ledger.jobs);
      round := Round([], [], [], View());
      BankIsValid(state);
      var cells := LiveCells();
      LiveAreKnown(cells);
      if cells == [] { return 0, round; }
      AllowLoads(cells, state);
      dispatched, round := Serve(cells, state);
    }

    static lemma NothingKept(jobs: map<Id, Job>)
      ensures AttemptsKept(jobs, jobs)
    {
    }

    lemma BankIsValid(state: X.Pass)
      requires Running(state)
      ensures bank.Valid()
    {
    }

    lemma LiveAreKnown(cells: seq<X.CellId>)
      requires bank.Valid() && EveryLiveCell(cells, bank.ids, bank.child)
      ensures X.Distinct(cells) && forall c :: c in cells ==> c in bank.device
    {
    }

    /** Dispatch to the given cells and collect what they answer. */
    method Serve(cells: seq<X.CellId>, state: X.Pass) returns (dispatched: nat, ghost round: Round)
      requires Inv(multiset{}) && Running(state) && flying == multiset{} && bank.busy == map[]
      requires X.Distinct(cells) && forall c :: c in cells ==> c in bank.device
      modifies this`entries, this`requested, this`denied, this`lanes, this`retry
      modifies this`offered, this`delivered, this`answered, this`refused, this`flying
      modifies ledger`jobs, ledger`reservations
      modifies policy, bank`child, bank`resident, bank`busy, bank`heard, bank`recycles, bank`context, bank`excused, bank`evictions
      modifies state`free, state`total, state`loadsLeft, state`loadsSent
      ensures Inv(multiset{}) && Running(state) && flying == multiset{} && bank.busy == map[]
      ensures offered == old(offered) + cells && round.cells == cells
      ensures dispatched == |round.pending| && AllEnded(round) && bank.heard == old(bank.heard) + Heard(round.pending, round.replies)
      ensures clean ==> SpentBy(old(ledger.jobs), ledger.jobs, Spenders(round.pending, round.replies, round.flown.entries))
    {
      hide Inv, Good, Accounted, X.CellBank.Sound, AllAwaited, Ended, SpentBy, AttemptsKept, Spenders;
      var pending := DispatchAll(cells, state);
      ghost var flown, jobs := View(), ledger.jobs;
      BusyCells(flown, bank.busy.Keys, pending);
      ghost var replies := CollectAll(pending, state);
      round := Round(cells, pending, replies, flown);
      if clean { KeptThenSpent(old(ledger.jobs), jobs, ledger.jobs, Spenders(pending, replies, flown.entries)); }
      NothingAwaited(View());
      BusyCells(View(), bank.busy.Keys, []);
      assert bank.busy.Keys == {};
      return |pending|, round;
    }

    /** Between passes other ledger users act and jobs are submitted, any number of times, the same job
        twice perhaps; and cells may be loaded, unloaded, restarted or killed by others. */
    method BetweenPasses()
      requires Idle()
      modifies this`entries, this`next, this`inbox, this`clean, ledger`jobs, bank`child
      ensures Idle() && AttemptsKept(old(ledger.jobs), ledger.jobs) && (clean ==> old(clean))
    {
      hide Idle, AttemptsKept;
      Unchanged(entries, lanes, ledger.jobs);
      var n: int := *;
      while n > 0
        invariant Idle() && AttemptsKept(old(ledger.jobs), ledger.jobs) && (clean ==> old(clean))
      {
        ghost var jobs := ledger.jobs;
        Arrive();
        KeptComposes(old(ledger.jobs), jobs, ledger.jobs);
        n := n - 1;
      }
      Visit();
    }

    /** Other ledger users act, and perhaps one job is submitted. */
    method Arrive()
      requires Idle()
      modifies this`entries, this`next, this`inbox, this`clean, ledger`jobs
      ensures Idle() && AttemptsKept(old(ledger.jobs), ledger.jobs) && (clean ==> old(clean))
    {
      hide Good, Accounted, OthersMay, AttemptsKept, Unclaimed, X.CellBank.Valid, X.CellBank.WithinBudget, R.Policy.Valid;
      Others(multiset{});
      var job: Job, priority: int, now: int := *, *, *;
      if job.id in ledger.jobs && ledger.jobs[job.id].digest == job.digest {
        var accepted := Submit(job, priority, now);
      }
    }

    method Visit()
      requires Idle()
      modifies bank`child
      ensures Idle()
    {
      hide Good, Accounted, X.CellBank.Valid, X.CellBank.WithinBudget, R.Policy.Valid;
      bank.Between();
    }

    /** Run passes one after another. */
    method RunForever(passes: nat)
      requires Idle()
      modifies this`entries, this`next, this`requested, this`denied, this`inbox, this`lanes, this`retry
      modifies this`offered, this`delivered, this`answered, this`refused
      modifies this`flying, this`clean, ledger`jobs, ledger`reservations
      modifies policy, bank`child, bank`resident, bank`busy, bank`heard, bank`recycles, bank`context, bank`excused, bank`evictions
      ensures Idle() && (clean ==> AttemptsNeverFall(old(ledger.jobs), ledger.jobs))
    {
      hide Idle, SpentBy, Spenders, AllEnded;
      for n := 0 to passes
        invariant Idle() && (clean ==> old(clean) && AttemptsNeverFall(old(ledger.jobs), ledger.jobs))
      {
        var now: int := *;
        BetweenPasses();
        ghost var sent: map<X.Device, nat>, round: Round;
        var dispatched: nat;
        ghost var jobs := ledger.jobs;
        dispatched, sent, round := RunOnce(now);
        if clean { SpentNeverFalls(jobs, ledger.jobs, Spenders(round.pending, round.replies, round.flown.entries)); }
      }
    }
  }
}
