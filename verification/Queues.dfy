// Where the scheduler keeps its work. A ticket is the identity of one submitted entry; every place
// an entry can be, and the two ways it can leave, hold tickets. Conserved says each ticket is in
// exactly one of them, counting the one a method currently has in hand.

module Queues {
  import opened Wrappers
  import opened Lifecycle
  import opened LedgerSpec

  type Ticket = nat

  /** One entry: the job as the ledger last returned it, and what its queueing is judged by. */
  datatype Queued = Queued(job: Job, priority: int, firstSeen: int, queuedAt: int)

  /** Jobs waiting for one digest, with how its loads have fared. */
  datatype Lane = Lane(
    digest: string, jobs: seq<Ticket>, burst: int,
    loadFailures: nat, blockedUntil: int, blockedReason: Option<string>)

  datatype Places = Places(
    entries: map<Ticket, Queued>, next: Ticket,
    inbox: seq<Ticket>, lanes: seq<Lane>, retry: seq<(int, Ticket)>, flying: multiset<Ticket>,
    refused: multiset<Ticket>, delivered: multiset<Ticket>)

  // -- conservation ------------------------------------------------------------------------------

  ghost function InLanes(lanes: seq<Lane>): multiset<Ticket> {
    if lanes == [] then multiset{} else InLanes(lanes[..|lanes| - 1]) + multiset(lanes[|lanes| - 1].jobs)
  }

  ghost function OnTimers(retry: seq<(int, Ticket)>): multiset<Ticket> {
    if retry == [] then multiset{} else OnTimers(retry[..|retry| - 1]) + multiset{retry[|retry| - 1].1}
  }

  /** In how many places a ticket is, counting the entries a method holds. */
  ghost function Count(p: Places, hand: multiset<Ticket>, t: Ticket): nat {
    multiset(p.inbox)[t] + InLanes(p.lanes)[t] + OnTimers(p.retry)[t] + p.flying[t] + p.refused[t] + p.delivered[t] + hand[t]
  }

  /** Every ticket issued so far is in exactly one place, or in hand; no other ticket is anywhere. */
  ghost predicate Conserved(p: Places, hand: multiset<Ticket>) {
    && (forall t: Ticket :: t in p.entries <==> t < p.next)
    && forall t: Ticket :: Count(p, hand, t) == if t < p.next then 1 else 0
  }

  lemma {:induction false} LaneChanged(lanes: seq<Lane>, k: nat, lane: Lane)
    requires k < |lanes|
    ensures forall t: Ticket :: InLanes(lanes[k := lane])[t] + multiset(lanes[k].jobs)[t] == InLanes(lanes)[t] + multiset(lane.jobs)[t]
    decreases |lanes|
  {
    var last := |lanes| - 1;
    var after := lanes[k := lane];
    if k == last {
      assert after[..last] == lanes[..last];
    } else {
      assert after[..last] == lanes[..last][k := lane];
      LaneChanged(lanes[..last], k, lane);
    }
  }

  lemma NextInHand(s: seq<Ticket>, k: nat)
    requires k < |s|
    ensures multiset(s[k..]) == multiset{s[k]} + multiset(s[k + 1..])
  {
    assert s[k..] == [s[k]] + s[k + 1..];
  }

  lemma LaneAdded(lanes: seq<Lane>, lane: Lane)
    ensures InLanes(lanes + [lane]) == InLanes(lanes) + multiset(lane.jobs)
  {
    assert (lanes + [lane])[..|lanes|] == lanes;
  }

  lemma TimerAdded(retry: seq<(int, Ticket)>, due: int, t: Ticket)
    ensures OnTimers(retry + [(due, t)]) == OnTimers(retry) + multiset{t}
  {
    assert (retry + [(due, t)])[..|retry|] == retry;
  }

  lemma {:induction false} LaneHolds(lanes: seq<Lane>, k: nat, t: Ticket)
    requires k < |lanes| && t in lanes[k].jobs
    ensures InLanes(lanes)[t] >= 1
    decreases |lanes|
  {
    if k < |lanes| - 1 { LaneHolds(lanes[..|lanes| - 1], k, t); }
  }

  lemma {:induction false} TimerHolds(retry: seq<(int, Ticket)>, k: nat)
    requires k < |retry|
    ensures OnTimers(retry)[retry[k].1] >= 1
    decreases |retry|
  {
    if k < |retry| - 1 { TimerHolds(retry[..|retry| - 1], k); }
  }

  /** A ticket in hand is live, in hand once, and queued nowhere. */
  lemma HandIsNowhere(p: Places, hand: multiset<Ticket>, t: Ticket)
    requires Conserved(p, hand) && t in hand
    ensures Live(p, t) && hand[t] == 1 && t !in p.flying && t !in p.inbox
    ensures forall k :: 0 <= k < |p.lanes| ==> t !in p.lanes[k].jobs
    ensures forall k :: 0 <= k < |p.retry| ==> p.retry[k].1 != t
  {
    assert Count(p, hand, t) == if t < p.next then 1 else 0;
    forall k | 0 <= k < |p.lanes| ensures t !in p.lanes[k].jobs {
      if t in p.lanes[k].jobs { LaneHolds(p.lanes, k, t); }
    }
    forall k | 0 <= k < |p.retry| ensures p.retry[k].1 != t {
      if p.retry[k].1 == t { TimerHolds(p.retry, k); }
    }
  }

  /** A ticket waiting in a lane is live and in no other place. */
  lemma LaneTicketIsLive(p: Places, hand: multiset<Ticket>, k: nat, t: Ticket)
    requires Conserved(p, hand) && k < |p.lanes| && t in p.lanes[k].jobs
    ensures Live(p, t) && t !in p.flying && t !in p.inbox && t !in hand
  {
    LaneHolds(p.lanes, k, t);
    assert Count(p, hand, t) == if t < p.next then 1 else 0;
  }

  // -- where entries may be ----------------------------------------------------------------------

  predicate Live(p: Places, t: Ticket) {
    t in p.entries && t !in p.refused && t !in p.delivered
  }

  /** What `submit` accepts. */
  predicate Schedulable(s: JobState) {
    s == Ready || s == Claimed || s == WaitingModel || s == RetryWait
  }

  /** What a lane may hold: anything `_claim` knows how to advance. */
  predicate Claimable(s: JobState) {
    s == Ready || s == Claimed || s == WaitingModel || s == Inferencing
  }

  /** Durable states that belong to whichever entry moved the job there. */
  predicate Held(s: JobState) {
    s == Claimed || s == WaitingModel || s == Inferencing
  }

  ghost predicate Shelved(p: Places) {
    && (forall i, j :: 0 <= i < j < |p.lanes| ==> p.lanes[i].digest != p.lanes[j].digest)
    && (forall k, t :: 0 <= k < |p.lanes| && t in p.lanes[k].jobs ==>
          t in p.entries && p.entries[t].job.digest == p.lanes[k].digest && Claimable(p.entries[t].job.state))
    && (forall t :: t in p.inbox ==> t in p.entries && Schedulable(p.entries[t].job.state))
    && (forall t :: t in p.flying ==> t in p.entries && p.entries[t].job.state == Inferencing)
  }

  // -- who owns a job ----------------------------------------------------------------------------

  /** An entry that thinks its job is being inferred holds the ledger's own row, and is the only one that
      thinks so. */
  ghost predicate Exclusive(p: Places, jobs: map<Id, Job>) {
    && (forall t :: Live(p, t) && p.entries[t].job.state == Inferencing ==>
          p.entries[t].job.id in jobs && jobs[p.entries[t].job.id] == p.entries[t].job)
    && (forall t, u ::
          Live(p, t) && Live(p, u) && p.entries[t].job.state == Inferencing && p.entries[u].job.state == Inferencing
          && p.entries[t].job.id == p.entries[u].job.id
          ==> t == u)
  }

  /** An entry past its claim holds the job's durable row, and no other live entry does. */
  ghost predicate Owned(p: Places, jobs: map<Id, Job>) {
    && (forall t :: Live(p, t) && Held(p.entries[t].job.state) ==>
          p.entries[t].job.id in jobs && jobs[p.entries[t].job.id] == p.entries[t].job)
    && (forall t, u ::
          Live(p, t) && Live(p, u) && Held(p.entries[t].job.state) && Held(p.entries[u].job.state)
          && p.entries[t].job.id == p.entries[u].job.id
          ==> t == u)
  }

  /** No two cells ever run the same job at once. */
  lemma OneFlightPerJob(p: Places, jobs: map<Id, Job>, t: Ticket, u: Ticket)
    requires Conserved(p, multiset{}) && Shelved(p) && Exclusive(p, jobs)
    requires t in p.flying && u in p.flying && p.entries[t].job.id == p.entries[u].job.id
    ensures t == u && p.flying[t] == 1
  {
    assert Count(p, multiset{}, t) == 1;
    assert Count(p, multiset{}, u) == 1;
  }

  /** The jobs only their owning entry may move. */
  predicate Guarded(p: Places, jobs: map<Id, Job>, id: Id) {
    exists t :: t in p.entries && Live(p, t) && p.entries[t].job.id == id && Held(p.entries[t].job.state)
                && id in jobs && jobs[id].state == p.entries[t].job.state
  }

  /** Jobs still in the lifecycle have attempts left. */
  predicate WithinAttempts(jobs: map<Id, Job>, max: int) {
    forall id :: id in jobs ==> jobs[id].attempts < max || jobs[id].state == ProcessingExhausted || jobs[id].state == RetainedFailed
  }

  /** What anything other than the scheduler may do to the job table meanwhile. */
  predicate OthersMay(p: Places, before: map<Id, Job>, after: map<Id, Job>, max: int) {
    && before.Keys <= after.Keys
    && (forall id :: id in before && Guarded(p, before, id) ==> after[id] == before[id])
    && (forall id :: id in before ==> after[id].attempts == before[id].attempts && after[id].digest == before[id].digest)
    && (forall id :: id in after ==> after[id].id == id)
    && (WithinAttempts(before, max) ==> WithinAttempts(after, max))
  }

  lemma OthersKeep(p: Places, before: map<Id, Job>, after: map<Id, Job>, max: int)
    requires OthersMay(p, before, after, max)
    ensures Exclusive(p, before) ==> Exclusive(p, after)
    ensures Owned(p, before) ==> Owned(p, after)
  {
    if Exclusive(p, before) {
      forall t | Live(p, t) && p.entries[t].job.state == Inferencing
        ensures p.entries[t].job.id in after && after[p.entries[t].job.id] == p.entries[t].job
      {
        assert Guarded(p, before, p.entries[t].job.id);
      }
    }
    if Owned(p, before) {
      forall t | Live(p, t) && Held(p.entries[t].job.state)
        ensures p.entries[t].job.id in after && after[p.entries[t].job.id] == p.entries[t].job
      {
        assert Guarded(p, before, p.entries[t].job.id);
      }
    }
  }

  /** One entry's compare-and-set. */
  function Adopted(p: Places, t: Ticket, job: Job): Places
    requires t in p.entries
  {
    p.(entries := p.entries[t := p.entries[t].(job := job)])
  }

  lemma AdvanceKeepsExclusive(p: Places, jobs: map<Id, Job>, t: Ticket, expected: JobState, job: Job)
    requires Exclusive(p, jobs) && Live(p, t)
    requires expected == Inferencing ==> p.entries[t].job.state == Inferencing
    requires job.id == p.entries[t].job.id && job.id in jobs && jobs[job.id].state == expected
    requires job.state == Inferencing ==> expected == WaitingModel || expected == Inferencing
    ensures Exclusive(Adopted(p, t, job), jobs[job.id := job])
  {
    var q := Adopted(p, t, job);
    forall u | Live(q, u) && u != t && q.entries[u].job.id == job.id ensures q.entries[u].job.state != Inferencing {
      assert Live(p, u);
    }
    forall u | Live(q, u) && q.entries[u].job.state == Inferencing
      ensures q.entries[u].job.id in jobs[job.id := job] && jobs[job.id := job][q.entries[u].job.id] == q.entries[u].job
    {
      assert Live(p, u);
    }
  }

  lemma AdvanceKeepsOwned(p: Places, jobs: map<Id, Job>, t: Ticket, expected: JobState, job: Job)
    requires Owned(p, jobs) && Live(p, t)
    requires Held(expected) ==> p.entries[t].job.state == expected
    requires job.id == p.entries[t].job.id && job.id in jobs && jobs[job.id].state == expected
    ensures Owned(Adopted(p, t, job), jobs[job.id := job])
  {
    var q := Adopted(p, t, job);
    forall u | Live(q, u) && u != t && q.entries[u].job.id == job.id ensures !Held(q.entries[u].job.state) {
      assert Live(p, u);
    }
    forall u | Live(q, u) && Held(q.entries[u].job.state)
      ensures q.entries[u].job.id in jobs[job.id := job] && jobs[job.id := job][q.entries[u].job.id] == q.entries[u].job
    {
      assert Live(p, u);
    }
    forall u, v | Live(q, u) && Live(q, v) && Held(q.entries[u].job.state) && Held(q.entries[v].job.state)
                  && q.entries[u].job.id == q.entries[v].job.id
      ensures u == v
    {
      assert Live(p, u) && Live(p, v);
    }
  }

  /** Every entry is for a job the ledger has, and queues for the model that job is pinned to. */
  ghost predicate Pinned(p: Places, jobs: map<Id, Job>) {
    && (forall id :: id in jobs ==> jobs[id].id == id)
    && (forall t :: t in p.entries ==>
          p.entries[t].job.id in jobs && jobs[p.entries[t].job.id].digest == p.entries[t].job.digest)
  }

  // -- everything together -----------------------------------------------------------------------

  /** Whose job is whose. When `clean`, no entry's copy of a job is stale. */
  ghost predicate Standing(p: Places, jobs: map<Id, Job>, clean: bool, max: int) {
    Pinned(p, jobs) && Exclusive(p, jobs) && (clean ==> Owned(p, jobs) && WithinAttempts(jobs, max))
  }

  /** What holds between any two steps of the scheduler, with `hand` what a step is holding. */
  ghost predicate Good(p: Places, jobs: map<Id, Job>, clean: bool, max: int, hand: multiset<Ticket>) {
    Conserved(p, hand) && Shelved(p) && Standing(p, jobs, clean, max)
  }

  /** Moving entries about changes nobody's standing. */
  lemma SameStanding(p: Places, q: Places, jobs: map<Id, Job>, clean: bool, max: int)
    requires Standing(p, jobs, clean, max)
    requires q.entries == p.entries && p.refused <= q.refused && p.delivered <= q.delivered
    ensures Standing(q, jobs, clean, max)
  {
    assert forall t :: Live(q, t) ==> Live(p, t);
  }

  /** Before anything is submitted. */
  lemma NothingSubmitted(jobs: map<Id, Job>, max: int)
    requires forall id :: id in jobs ==> jobs[id].id == id
    ensures Good(Places(map[], 0, [], [], [], multiset{}, multiset{}, multiset{}), jobs, WithinAttempts(jobs, max), max, multiset{})
  {
    var p := Places(map[], 0, [], [], [], multiset{}, multiset{}, multiset{});
    assert forall t: Ticket :: Count(p, multiset{}, t) == 0;
  }

  // Each step below moves one entry between places. Its lemma says the whole invariant survives.

  function Submitted(p: Places, entry: Queued): Places {
    p.(entries := p.entries[p.next := entry], next := p.next + 1, inbox := p.inbox + [p.next])
  }

  /** The job is the ledger's own row and no live entry holds it. */
  ghost predicate Unclaimed(p: Places, jobs: map<Id, Job>, job: Job) {
    && job.id in jobs && jobs[job.id] == job
    && forall t :: Live(p, t) && Held(p.entries[t].job.state) ==> p.entries[t].job.id != job.id
  }

  lemma SubmitConserves(p: Places, entry: Queued)
    requires Conserved(p, multiset{})
    ensures Conserved(Submitted(p, entry), multiset{})
    ensures p.next !in p.entries && p.next !in p.refused && p.next !in p.delivered
  {
    var q := Submitted(p, entry);
    assert Count(p, multiset{}, p.next) == 0;
    forall t: Ticket ensures Count(q, multiset{}, t) == if t < q.next then 1 else 0 {
      assert Count(p, multiset{}, t) == if t < p.next then 1 else 0;
    }
  }

  lemma SubmitShelves(p: Places, entry: Queued)
    requires Shelved(p) && p.next !in p.entries && Schedulable(entry.job.state)
    ensures Shelved(Submitted(p, entry))
  {
  }

  lemma SubmitStands(p: Places, jobs: map<Id, Job>, clean: bool, max: int, entry: Queued)
    requires Standing(p, jobs, clean, max) && Schedulable(entry.job.state) && p.next !in p.entries
    requires entry.job.id in jobs && jobs[entry.job.id].digest == entry.job.digest
    ensures Standing(Submitted(p, entry), jobs, clean && (Held(entry.job.state) ==> Unclaimed(p, jobs, entry.job)), max)
  {
    var q := Submitted(p, entry);
    forall t | Live(q, t) && t != p.next ensures Live(p, t) && q.entries[t] == p.entries[t] {
    }
  }

  /** A submission keeps a clean scheduler clean exactly when the job is not past its claim, or is the
      ledger's own row and held by no live entry. */
  lemma CleanExactly(p: Places, jobs: map<Id, Job>, max: int, entry: Queued)
    requires Standing(p, jobs, true, max) && Schedulable(entry.job.state)
    requires p.next !in p.entries && p.next !in p.refused && p.next !in p.delivered
    requires entry.job.id in jobs && jobs[entry.job.id].digest == entry.job.digest
    ensures Standing(Submitted(p, entry), jobs, true, max) <==> (Held(entry.job.state) ==> Unclaimed(p, jobs, entry.job))
  {
    SubmitStands(p, jobs, true, max, entry);
    var q := Submitted(p, entry);
    if Held(entry.job.state) && Standing(q, jobs, true, max) {
      assert Live(q, p.next) && q.entries[p.next] == entry;
      forall t | Live(p, t) && Held(p.entries[t].job.state) ensures p.entries[t].job.id != entry.job.id {
        assert t != p.next && Live(q, t) && q.entries[t] == p.entries[t];
      }
    }
  }

  lemma SubmitGood(p: Places, jobs: map<Id, Job>, clean: bool, max: int, entry: Queued)
    requires Good(p, jobs, clean, max, multiset{}) && Schedulable(entry.job.state)
    requires entry.job.id in jobs && jobs[entry.job.id].digest == entry.job.digest
    ensures Good(Submitted(p, entry), jobs, clean && (Held(entry.job.state) ==> Unclaimed(p, jobs, entry.job)), max, multiset{})
  {
    SubmitConserves(p, entry);
    SubmitShelves(p, entry);
    SubmitStands(p, jobs, clean, max, entry);
  }

  /** Take the head of a lane in hand. */
  function Popped(p: Places, k: nat): Places
    requires k < |p.lanes| && p.lanes[k].jobs != []
  {
    p.(lanes := p.lanes[k := p.lanes[k].(jobs := p.lanes[k].jobs[1..])])
  }

  lemma PopConserves(p: Places, k: nat)
    requires Conserved(p, multiset{}) && k < |p.lanes| && p.lanes[k].jobs != []
    ensures Conserved(Popped(p, k), multiset{p.lanes[k].jobs[0]}) && Live(p, p.lanes[k].jobs[0])
  {
    var q := Popped(p, k);
    var t := p.lanes[k].jobs[0];
    LaneTicketIsLive(p, multiset{}, k, t);
    LaneChanged(p.lanes, k, q.lanes[k]);
    assert p.lanes[k].jobs == [t] + q.lanes[k].jobs;
    forall u: Ticket ensures Count(q, multiset{t}, u) == Count(p, multiset{}, u) {
      assert multiset(p.lanes[k].jobs)[u] == (if u == t then 1 else 0) + multiset(q.lanes[k].jobs)[u];
    }
  }

  lemma PopGood(p: Places, jobs: map<Id, Job>, clean: bool, max: int, k: nat)
    requires Good(p, jobs, clean, max, multiset{}) && k < |p.lanes| && p.lanes[k].jobs != []
    ensures Good(Popped(p, k), jobs, clean, max, multiset{p.lanes[k].jobs[0]})
    ensures Live(p, p.lanes[k].jobs[0]) && Claimable(p.entries[p.lanes[k].jobs[0]].job.state)
  {
    hide Standing;
    PopConserves(p, k);
    SameStanding(p, Popped(p, k), jobs, clean, max);
  }

  /** Put the entry in hand into a lane, at the front or at the back. */
  function Pushed(p: Places, k: nat, t: Ticket, front: bool): Places
    requires k < |p.lanes|
  {
    p.(lanes := p.lanes[k := p.lanes[k].(jobs := if front then [t] + p.lanes[k].jobs else p.lanes[k].jobs + [t])])
  }

  lemma PushConserves(p: Places, k: nat, t: Ticket, front: bool, rest: multiset<Ticket>)
    requires Conserved(p, multiset{t} + rest) && k < |p.lanes|
    ensures Conserved(Pushed(p, k, t, front), rest)
  {
    var q := Pushed(p, k, t, front);
    LaneChanged(p.lanes, k, q.lanes[k]);
    forall u: Ticket ensures Count(q, rest, u) == Count(p, multiset{t} + rest, u) {
      assert multiset(q.lanes[k].jobs)[u] == (if u == t then 1 else 0) + multiset(p.lanes[k].jobs)[u];
    }
  }

  lemma PushShelves(p: Places, k: nat, t: Ticket, front: bool)
    requires Shelved(p) && k < |p.lanes| && t in p.entries
    requires p.entries[t].job.digest == p.lanes[k].digest && Claimable(p.entries[t].job.state)
    ensures Shelved(Pushed(p, k, t, front))
  {
  }

  lemma PushGood(p: Places, jobs: map<Id, Job>, clean: bool, max: int, k: nat, t: Ticket, front: bool, rest: multiset<Ticket>)
    requires Good(p, jobs, clean, max, multiset{t} + rest) && k < |p.lanes| && t in p.entries
    requires p.entries[t].job.digest == p.lanes[k].digest && Claimable(p.entries[t].job.state)
    ensures Good(Pushed(p, k, t, front), jobs, clean, max, rest)
  {
    hide Standing;
    PushConserves(p, k, t, front, rest);
    PushShelves(p, k, t, front);
    SameStanding(p, Pushed(p, k, t, front), jobs, clean, max);
  }

  /** A lane for a digest that has none yet. */
  function Opened(p: Places, digest: string): Places {
    p.(lanes := p.lanes + [Lane(digest, [], 0, 0, 0, None)])
  }

  lemma OpenConserves(p: Places, digest: string, hand: multiset<Ticket>)
    requires Conserved(p, hand)
    ensures Conserved(Opened(p, digest), hand)
  {
    var q := Opened(p, digest);
    LaneAdded(p.lanes, q.lanes[|p.lanes|]);
    forall u: Ticket ensures Count(q, hand, u) == Count(p, hand, u) {
    }
  }

  lemma OpenShelves(p: Places, digest: string)
    requires Shelved(p) && forall k :: 0 <= k < |p.lanes| ==> p.lanes[k].digest != digest
    ensures Shelved(Opened(p, digest))
  {
  }

  lemma OpenGood(p: Places, jobs: map<Id, Job>, clean: bool, max: int, digest: string, hand: multiset<Ticket>)
    requires Good(p, jobs, clean, max, hand)
    requires forall k :: 0 <= k < |p.lanes| ==> p.lanes[k].digest != digest
    ensures Good(Opened(p, digest), jobs, clean, max, hand)
  {
    hide Standing;
    OpenConserves(p, digest, hand);
    OpenShelves(p, digest);
    SameStanding(p, Opened(p, digest), jobs, clean, max);
  }

  /** Changing a lane's bookkeeping, not its queue. */
  function Noted(p: Places, k: nat, lane: Lane): Places
    requires k < |p.lanes|
  {
    p.(lanes := p.lanes[k := lane])
  }

  lemma NoteGood(p: Places, jobs: map<Id, Job>, clean: bool, max: int, k: nat, lane: Lane, hand: multiset<Ticket>)
    requires Good(p, jobs, clean, max, hand) && k < |p.lanes|
    requires lane.jobs == p.lanes[k].jobs && lane.digest == p.lanes[k].digest
    ensures Good(Noted(p, k, lane), jobs, clean, max, hand)
  {
    hide Standing;
    var q := Noted(p, k, lane);
    LaneChanged(p.lanes, k, lane);
    forall u: Ticket ensures Count(q, hand, u) == Count(p, hand, u) {
    }
    SameStanding(p, q, jobs, clean, max);
  }

  /** Start a retry timer for the entry in hand. */
  function Timed(p: Places, due: int, t: Ticket): Places {
    p.(retry := p.retry + [(due, t)])
  }

  lemma TimeConserves(p: Places, due: int, t: Ticket, rest: multiset<Ticket>)
    requires Conserved(p, multiset{t} + rest)
    ensures Conserved(Timed(p, due, t), rest)
  {
    hide InLanes, OnTimers;
    TimerAdded(p.retry, due, t);
    forall u: Ticket ensures Count(Timed(p, due, t), rest, u) == Count(p, multiset{t} + rest, u) {
    }
  }

  lemma TimeGood(p: Places, jobs: map<Id, Job>, clean: bool, max: int, due: int, t: Ticket, rest: multiset<Ticket>)
    requires Good(p, jobs, clean, max, multiset{t} + rest)
    ensures Good(Timed(p, due, t), jobs, clean, max, rest)
  {
    hide Conserved, Standing;
    TimeConserves(p, due, t, rest);
    SameStanding(p, Timed(p, due, t), jobs, clean, max);
  }

  /** Take some timers' entries in hand, leaving the others. */
  lemma UntimeConserves(p: Places, left: seq<(int, Ticket)>, due: multiset<Ticket>)
    requires Conserved(p, multiset{}) && OnTimers(p.retry) == OnTimers(left) + due
    ensures Conserved(p.(retry := left), due)
  {
    hide InLanes, OnTimers;
    forall u: Ticket ensures Count(p.(retry := left), due, u) == Count(p, multiset{}, u) {
    }
  }

  lemma UntimeGood(p: Places, jobs: map<Id, Job>, clean: bool, max: int, left: seq<(int, Ticket)>, due: multiset<Ticket>)
    requires Good(p, jobs, clean, max, multiset{})
    requires OnTimers(p.retry) == OnTimers(left) + due
    ensures Good(p.(retry := left), jobs, clean, max, due)
  {
    hide Conserved, Standing, OnTimers;
    UntimeConserves(p, left, due);
    SameStanding(p, p.(retry := left), jobs, clean, max);
  }

  /** The timers that have come due, and the others, each in order. */
  function Due(retry: seq<(int, Ticket)>, now: int): seq<Ticket> {
    if retry == [] then []
    else
      var last := retry[|retry| - 1];
      Due(retry[..|retry| - 1], now) + if last.0 <= now then [last.1] else []
  }

  function NotDue(retry: seq<(int, Ticket)>, now: int): seq<(int, Ticket)> {
    if retry == [] then []
    else
      var last := retry[|retry| - 1];
      NotDue(retry[..|retry| - 1], now) + if last.0 > now then [last] else []
  }

  /** Exactly the timers whose time is past come due, and exactly the others stay. */
  lemma {:induction false} TimersComeDue(retry: seq<(int, Ticket)>, now: int)
    ensures forall t :: t in Due(retry, now) <==> exists i :: 0 <= i < |retry| && retry[i].1 == t && retry[i].0 <= now
    ensures forall timer :: timer in NotDue(retry, now) <==> timer in retry && timer.0 > now
    decreases |retry|
  {
    if retry != [] {
      var front, last := retry[..|retry| - 1], retry[|retry| - 1];
      assert retry == front + [last];
      TimersComeDue(front, now);
      forall t ensures t in Due(retry, now) <==> exists i :: 0 <= i < |retry| && retry[i].1 == t && retry[i].0 <= now {
        if i :| 0 <= i < |retry| && retry[i].1 == t && retry[i].0 <= now {
          assert i < |front| ==> front[i].1 == t && front[i].0 <= now;
        }
        if i :| 0 <= i < |front| && front[i].1 == t && front[i].0 <= now {
          assert retry[i].1 == t && retry[i].0 <= now;
        }
      }
    }
  }

  lemma {:induction false} TimersSplit(retry: seq<(int, Ticket)>, now: int)
    ensures OnTimers(retry) == OnTimers(NotDue(retry, now)) + multiset(Due(retry, now))
    decreases |retry|
  {
    if retry != [] {
      var front, last := retry[..|retry| - 1], retry[|retry| - 1];
      TimersSplit(front, now);
      if last.0 > now {
        TimerAdded(NotDue(front, now), last.0, last.1);
        assert Due(retry, now) == Due(front, now);
      } else {
        assert NotDue(retry, now) == NotDue(front, now);
        assert multiset(Due(retry, now)) == multiset(Due(front, now)) + multiset{last.1};
      }
    }
  }

  /** An entry's queueing time may be restamped at any moment. */
  function Restamped(p: Places, t: Ticket, now: int): Places
    requires t in p.entries
  {
    p.(entries := p.entries[t := p.entries[t].(queuedAt := now)])
  }

  lemma RestampStands(p: Places, jobs: map<Id, Job>, clean: bool, max: int, t: Ticket, now: int)
    requires Standing(p, jobs, clean, max) && t in p.entries
    ensures Standing(Restamped(p, t, now), jobs, clean, max)
  {
    var q := Restamped(p, t, now);
    assert forall u :: Live(q, u) <==> Live(p, u);
    assert forall u :: u in p.entries ==> q.entries[u].job == p.entries[u].job;
  }

  lemma RestampGood(p: Places, jobs: map<Id, Job>, clean: bool, max: int, hand: multiset<Ticket>, t: Ticket, now: int)
    requires Good(p, jobs, clean, max, hand) && t in p.entries
    ensures Good(Restamped(p, t, now), jobs, clean, max, hand)
  {
    hide Standing;
    assert forall u: Ticket :: Count(Restamped(p, t, now), hand, u) == Count(p, hand, u);
    RestampStands(p, jobs, clean, max, t, now);
  }

  /** The entry in hand leaves: its edge was refused, or its answer was delivered. */
  function Dropped(p: Places, t: Ticket): Places {
    p.(refused := p.refused + multiset{t})
  }

  function Delivered(p: Places, t: Ticket): Places {
    p.(delivered := p.delivered + multiset{t})
  }

  lemma DropGood(p: Places, jobs: map<Id, Job>, clean: bool, max: int, t: Ticket, rest: multiset<Ticket>)
    requires Good(p, jobs, clean, max, multiset{t} + rest)
    ensures Good(Dropped(p, t), jobs, clean, max, rest)
  {
    hide Standing;
    forall u: Ticket ensures Count(Dropped(p, t), rest, u) == Count(p, multiset{t} + rest, u) {
    }
    SameStanding(p, Dropped(p, t), jobs, clean, max);
  }

  lemma DeliverGood(p: Places, jobs: map<Id, Job>, clean: bool, max: int, t: Ticket, rest: multiset<Ticket>)
    requires Good(p, jobs, clean, max, multiset{t} + rest)
    ensures Good(Delivered(p, t), jobs, clean, max, rest)
  {
    hide Standing;
    forall u: Ticket ensures Count(Delivered(p, t), rest, u) == Count(p, multiset{t} + rest, u) {
    }
    SameStanding(p, Delivered(p, t), jobs, clean, max);
  }

  /** The entry in hand goes out to a cell, or comes back from one. */
  function Launched(p: Places, t: Ticket): Places {
    p.(flying := p.flying + multiset{t})
  }

  function Landed(p: Places, t: Ticket): Places {
    p.(flying := p.flying - multiset{t})
  }

  lemma LaunchGood(p: Places, jobs: map<Id, Job>, clean: bool, max: int, t: Ticket)
    requires Good(p, jobs, clean, max, multiset{t}) && t in p.entries && p.entries[t].job.state == Inferencing
    ensures Good(Launched(p, t), jobs, clean, max, multiset{})
  {
    hide Standing;
    forall u: Ticket ensures Count(Launched(p, t), multiset{}, u) == Count(p, multiset{t}, u) {
    }
    SameStanding(p, Launched(p, t), jobs, clean, max);
  }

  lemma LandGood(p: Places, jobs: map<Id, Job>, clean: bool, max: int, t: Ticket)
    requires Good(p, jobs, clean, max, multiset{}) && t in p.flying
    ensures Good(Landed(p, t), jobs, clean, max, multiset{t})
  {
    hide Standing;
    forall u: Ticket ensures Count(Landed(p, t), multiset{t}, u) == Count(p, multiset{}, u) {
    }
    SameStanding(p, Landed(p, t), jobs, clean, max);
  }

  /** The whole inbox is taken in hand. */
  lemma EmptyInboxGood(p: Places, jobs: map<Id, Job>, clean: bool, max: int)
    requires Good(p, jobs, clean, max, multiset{})
    ensures Good(p.(inbox := []), jobs, clean, max, multiset(p.inbox))
    ensures forall t :: t in p.inbox ==> t in p.entries && Schedulable(p.entries[t].job.state)
  {
    hide Standing;
    var q := p.(inbox := []);
    forall u: Ticket ensures Count(q, multiset(p.inbox), u) == Count(p, multiset{}, u) {
    }
    SameStanding(p, q, jobs, clean, max);
  }

  // -- ledger edges ------------------------------------------------------------------------------

  lemma OthersGood(p: Places, before: map<Id, Job>, after: map<Id, Job>, clean: bool, max: int, hand: multiset<Ticket>)
    requires Good(p, before, clean, max, hand) && OthersMay(p, before, after, max)
    ensures Good(p, after, clean, max, hand)
  {
    OthersKeep(p, before, after, max);
  }

  /** An entry in hand is nowhere else, and may ask for any edge out of its state. */
  lemma InHand(p: Places, jobs: map<Id, Job>, clean: bool, max: int, hand: multiset<Ticket>, t: Ticket)
    requires Good(p, jobs, clean, max, hand) && t in hand
    ensures Live(p, t) && t !in p.flying && t !in p.inbox
    ensures clean && Held(p.entries[t].job.state) ==> p.entries[t].job.attempts < max
    ensures forall k :: 0 <= k < |p.lanes| ==> t !in p.lanes[k].jobs
  {
    HandIsNowhere(p, hand, t);
  }

  /** So may the head of a lane, as long as the edge leaves it claimable. */
  lemma AtHeadOf(p: Places, jobs: map<Id, Job>, clean: bool, max: int, hand: multiset<Ticket>, k: nat)
    requires Good(p, jobs, clean, max, hand) && k < |p.lanes| && p.lanes[k].jobs != []
    ensures var t := p.lanes[k].jobs[0];
            Live(p, t) && t !in p.flying && t !in p.inbox && Claimable(p.entries[t].job.state)
            && p.entries[t].job.digest == p.lanes[k].digest
  {
    LaneTicketIsLive(p, hand, k, p.lanes[k].jobs[0]);
  }

  /** What the invariant says about one live entry's row. */
  lemma RowOf(p: Places, jobs: map<Id, Job>, clean: bool, max: int, hand: multiset<Ticket>, t: Ticket)
    requires Good(p, jobs, clean, max, hand) && Live(p, t)
    ensures var own := p.entries[t].job;
      && own.id in jobs && jobs[own.id].id == own.id && jobs[own.id].digest == own.digest
      && (own.state == Inferencing ==> jobs[own.id] == own)
      && (clean && Held(own.state) ==> jobs[own.id] == own)
      && (clean ==> jobs[own.id].attempts < max || jobs[own.id].state == ProcessingExhausted || jobs[own.id].state == RetainedFailed)
  {
  }

  /** A compare-and-set may change an entry in hand to anything; one in a lane must stay claimable. */
  lemma AdvanceShelves(p: Places, hand: multiset<Ticket>, t: Ticket, job: Job)
    requires Conserved(p, hand) && Shelved(p) && t in p.entries && t !in p.inbox && t !in p.flying
    requires job.digest == p.entries[t].job.digest && (Claimable(job.state) || t in hand)
    ensures Conserved(Adopted(p, t, job), hand) && Shelved(Adopted(p, t, job))
  {
    var q := Adopted(p, t, job);
    assert forall u: Ticket :: Count(q, hand, u) == Count(p, hand, u);
    if t in hand { HandIsNowhere(p, hand, t); }
  }

  lemma AdvanceStands(p: Places, jobs: map<Id, Job>, clean: bool, max: int, t: Ticket, expected: JobState, job: Job)
    requires Standing(p, jobs, clean, max) && Live(p, t)
    requires expected == p.entries[t].job.state || expected == RetryWait
    requires job.id == p.entries[t].job.id && job.id in jobs && jobs[job.id].state == expected
    requires job.digest == jobs[job.id].digest
    requires job.state == Inferencing ==> expected == WaitingModel || expected == Inferencing
    requires clean ==> job.attempts < max || job.state == ProcessingExhausted
    ensures Standing(Adopted(p, t, job), jobs[job.id := job], clean, max)
  {
    AdvanceKeepsExclusive(p, jobs, t, expected, job);
    if clean { AdvanceKeepsOwned(p, jobs, t, expected, job); }
  }

  lemma AdvanceGood(p: Places, jobs: map<Id, Job>, clean: bool, max: int, hand: multiset<Ticket>, t: Ticket, expected: JobState, job: Job)
    requires Good(p, jobs, clean, max, hand) && Live(p, t)
    requires expected == p.entries[t].job.state || expected == RetryWait
    requires job.id == p.entries[t].job.id && job.id in jobs && jobs[job.id].state == expected
    requires job.digest == jobs[job.id].digest
    requires job.state == Inferencing ==> expected == WaitingModel || expected == Inferencing
    requires Claimable(job.state) || t in hand
    requires t !in p.inbox && t !in p.flying
    requires clean ==> job.attempts < max || job.state == ProcessingExhausted
    ensures Good(Adopted(p, t, job), jobs[job.id := job], clean, max, hand)
  {
    AdvanceShelves(p, hand, t, job);
    AdvanceStands(p, jobs, clean, max, t, expected, job);
  }

  /** Whether an entry may ask for an edge from where it is. */
  predicate MayAsk(p: Places, clean: bool, max: int, hand: multiset<Ticket>, t: Ticket, expected: JobState, next: JobState, f: Fields) {
    && Live(p, t) && t !in p.inbox && t !in p.flying
    && (expected == p.entries[t].job.state || expected == RetryWait)
    && (next == Inferencing ==> expected == WaitingModel || expected == Inferencing)
    && (Claimable(next) || t in hand)
    && !Terminal(expected) && expected != ProcessingExhausted
    && (clean && f.attempts.Some? ==> f.attempts.value < max || next == ProcessingExhausted)
  }

  /** An entry in hand that holds its job may ask for any edge that lets the job go. */
  lemma HandMayAsk(p: Places, jobs: map<Id, Job>, clean: bool, max: int, hand: multiset<Ticket>, t: Ticket, next: JobState, f: Fields)
    requires Good(p, jobs, clean, max, hand) && t in hand && t in p.entries && Held(p.entries[t].job.state) && !Held(next)
    requires clean && f.attempts.Some? ==> f.attempts.value < max || next == ProcessingExhausted
    ensures MayAsk(p, clean, max, hand, t, p.entries[t].job.state, next, f)
  {
    InHand(p, jobs, clean, max, hand, t);
  }

  /** Asking for an edge: when the row is where the entry expects it, the edge keeps the invariant;
      and an entry that owns its row is never refused. */
  lemma AskGood(p: Places, jobs: map<Id, Job>, clean: bool, max: int, hand: multiset<Ticket>,
                t: Ticket, expected: JobState, next: JobState, f: Fields)
    requires Good(p, jobs, clean, max, hand) && MayAsk(p, clean, max, hand, t, expected, next, f)
    ensures var own := p.entries[t].job;
      && own.id in jobs
      && (expected == Inferencing || (clean && Held(expected)) ==> jobs[own.id].state == expected)
      && var job := Moved(jobs[own.id], next, f);
         job.id == own.id && job.digest == own.digest
         && (jobs[own.id].state == expected ==> Good(Adopted(p, t, job), jobs[own.id := job], clean, max, hand))
  {
    hide Good;
    RowOf(p, jobs, clean, max, hand, t);
    var own := p.entries[t].job;
    if jobs[own.id].state == expected {
      AdvanceGood(p, jobs, clean, max, hand, t, expected, Moved(jobs[own.id], next, f));
    }
  }
}
