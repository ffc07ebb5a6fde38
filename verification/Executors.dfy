// The scheduler's view of the executor cells: which sessions it believes each cell holds, what a
// device has left, and the requests that change either. A child may die at any moment; a request
// it does not answer recycles it. Every restart begins with no sessions.

module Executors {
  import opened Wrappers
  import opened Sums
  import opened Residency
  import opened CellMain

  type CellId = string

  /** Where a cell runs; the processor counts as a device of its own. */
  type Device = Option<string>

  /** The process behind one cell. */
  datatype Child = Child(alive: bool, held: Held)

  // -- what a device holds -----------------------------------------------------------------------

  type Records = map<Digest, Stats>

  function Footprints(records: Records): map<Digest, nat> {
    map d | d in records :: records[d].Footprint()
  }

  ghost function CellMib(resident: map<CellId, Records>, c: CellId): nat {
    if c in resident then Total(Footprints(resident[c])) else 0
  }

  /** The footprints recorded on one device, across all its cells. */
  ghost function DeviceMib(ids: seq<CellId>, device: map<CellId, Device>, resident: map<CellId, Records>, dev: Device): nat
    requires forall c :: c in ids ==> c in device
  {
    if ids == [] then 0
    else
      var c := ids[|ids| - 1];
      DeviceMib(ids[..|ids| - 1], device, resident, dev) + if device[c] == dev then CellMib(resident, c) else 0
  }

  predicate Distinct(ids: seq<CellId>) {
    forall i, j :: 0 <= i < j < |ids| ==> ids[i] != ids[j]
  }

  /** Changing the records of one cell moves its device's total by exactly the difference. */
  lemma {:induction false} DeviceChange(ids: seq<CellId>, device: map<CellId, Device>,
                                        before: map<CellId, Records>, after: map<CellId, Records>, c: CellId, dev: Device)
    requires forall o :: o in ids ==> o in device
    requires Distinct(ids)
    requires forall o :: o != c ==> CellMib(after, o) == CellMib(before, o)
    ensures DeviceMib(ids, device, after, dev)
         == DeviceMib(ids, device, before, dev) + (if c in ids && device[c] == dev then CellMib(after, c) - CellMib(before, c) else 0)
    decreases |ids|
  {
    if ids != [] {
      var front := ids[..|ids| - 1];
      var last := ids[|ids| - 1];
      assert ids == front + [last];
      DeviceChange(front, device, before, after, c, dev);
      assert last !in front;
    }
  }

  /** What each cell's own device context takes on one device, together. */
  ghost function DeviceContext(ids: seq<CellId>, device: map<CellId, Device>, context: map<CellId, nat>, dev: Device): nat
    requires forall c :: c in ids ==> c in device
  {
    if ids == [] then 0
    else
      var c := ids[|ids| - 1];
      DeviceContext(ids[..|ids| - 1], device, context, dev) + if device[c] == dev then Get(context, c, 0) else 0
  }

  /** The sessions of one cell that remain after some evictions, and what they still add up to. */
  lemma {:induction false} EvictionSum(records: Records, offers: map<Digest, Offer>, chosen: seq<Digest>)
    requires forall d :: d in chosen ==> d in offers && d in records && offers[d].mib == records[d].Footprint()
    requires forall i, j :: 0 <= i < j < |chosen| ==> chosen[i] != chosen[j]
    ensures Total(Footprints(records)) == Total(Footprints(records - Digests(chosen))) + Sum(offers, chosen)
    decreases |chosen|
  {
    if chosen == [] {
      assert records - Digests(chosen) == records;
    } else {
      var front, last := chosen[..|chosen| - 1], chosen[|chosen| - 1];
      EvictionSum(records, offers, front);
      var left := records - Digests(front);
      assert last in left;
      TotalSplit(Footprints(left), last);
      assert Footprints(left) - {last} == Footprints(left - {last});
      assert left - {last} == records - Digests(chosen);
    }
  }

  function Digests(chosen: seq<Digest>): set<Digest> {
    set d | d in chosen
  }

  /** Whether an unload returned so little of what it should that the arena is stuck. */
  predicate TooLittle(returned: nat, expected: nat, total: int, ratio: real) {
    expected > 0 && total > 0 && (returned as real) < (expected as real) * ratio
  }

  /** An unload that returns less is stuck if one that returns more is; one that returns everything is not, and
      nothing is on a device without memory of its own. */
  lemma StuckBelow(less: nat, more: nat, expected: nat, total: int, ratio: real)
    requires less <= more
    ensures TooLittle(more, expected, total, ratio) ==> TooLittle(less, expected, total, ratio)
    ensures ratio <= 1.0 ==> !TooLittle(expected, expected, total, ratio)
    ensures total <= 0 ==> !TooLittle(less, expected, total, ratio)
    ensures expected > 0 && total > 0 ==> (TooLittle(0, expected, total, ratio) <==> ratio > 0.0)
  {
  }

  // -- one pass ----------------------------------------------------------------------------------

  /** One pass's memory: readings taken, and loads still allowed. */
  class Pass {
    const now: int
    var free: map<CellId, int>
    var total: map<CellId, int>
    var loadsLeft: map<Device, int>
    ghost var loadsSent: map<Device, nat>

    constructor (now: int)
      ensures this.now == now && free == map[] && total == map[] && loadsLeft == map[] && loadsSent == map[]
    {
      this.now := now;
      free, total, loadsLeft, loadsSent := map[], map[], map[], map[];
    }

    /** Loads sent and loads left always add up to the configured concurrency. */
    ghost predicate Counted(concurrency: int)
      reads this
    {
      && (forall d :: d in loadsLeft ==> loadsLeft[d] + Get(loadsSent, d, 0) == concurrency)
      && (forall d :: d in loadsSent ==> d in loadsLeft && (loadsSent[d] > 0 ==> loadsLeft[d] >= 0))
      && free.Keys == total.Keys
    }
  }

  /** A device is sent at most the configured number of loads in one pass. */
  lemma LoadsBounded(state: Pass, concurrency: int, dev: Device)
    requires state.Counted(concurrency)
    ensures Get(state.loadsSent, dev, 0) <= Max(concurrency, 0)
  {
    assert dev in state.loadsSent ==> dev in state.loadsLeft;
  }

  // -- the cells ---------------------------------------------------------------------------------

  class CellBank {
    const ids: seq<CellId>
    const device: map<CellId, Device>
    const cfg: Settings

    var child: map<CellId, Child>
    var resident: map<CellId, Records>
    var context: map<CellId, nat>
    /** The digest each busy cell was last asked to infer with. */
    var busy: map<CellId, Digest>

    var recycles: nat
    var evictions: nat

    /** Devices whose installed memory is known, with that memory. */
    ghost const rated: map<Device, int>
    /** Rated devices that misreported: a reading of another size, or a load over its admission. */
    ghost var excused: set<Device>
    /** What was collected from busy cells so far, in order. */
    ghost var heard: seq<(CellId, Collected)>

    ghost predicate Valid()
      reads this`child, this`resident, this`busy
    {
      && Distinct(ids)
      && (forall c :: c in ids <==> c in device)
      && child.Keys == device.Keys
      && resident.Keys <= device.Keys && busy.Keys <= device.Keys
      && (forall d :: d in rated ==> rated[d] > 0)
      && cfg.activationPeak >= 1.0 && cfg.pressureGrowth >= 1.0
    }

    /** Every session recorded for these cells is held by them, unless they are dead. */
    ghost predicate Agrees(cells: set<CellId>)
      reads this`child, this`resident
    {
      forall c :: c in cells && c in child && c in resident && child[c].alive ==> resident[c].Keys <= child[c].held.sessions.Keys
    }

    /** Whatever a busy cell was asked to run, it holds the session for, unless it is dead. */
    ghost predicate Served()
      reads this`child, this`busy
    {
      forall c :: c in busy && c in child && child[c].alive ==> busy[c] in child[c].held.sessions
    }

    /** So much fits the configured percentage of a device's real size. */
    ghost predicate Fits(dev: Device, mib: int)
      requires dev in rated
    {
      mib <= 0 || mib as real <= rated[dev] as real * cfg.budgetPercent / 100.0
    }

    /** On every honest rated device, what is recorded stays within the budget. */
    ghost predicate WithinBudget()
      reads this`resident, this`excused
      requires forall c :: c in ids ==> c in device
    {
      forall dev :: dev in rated && dev !in excused ==> Fits(dev, DeviceMib(ids, device, resident, dev))
    }

    /** The pass judged each honest cell against its device's real size. */
    ghost predicate Measured(state: Pass)
      reads this`excused, state`total
    {
      forall c :: c in state.total && c in device && device[c] in rated && device[c] !in excused ==> state.total[c] == rated[device[c]]
    }

    /** Everything a scheduling pass relies on and keeps. */
    ghost predicate Sound(state: Pass)
      reads this`child, this`resident, this`busy, this`excused, state`free, state`total
    {
      Valid() && Agrees(state.free.Keys) && Served() && WithinBudget() && Measured(state)
    }

    constructor (ids: seq<CellId>, device: map<CellId, Device>, cfg: Settings, ghost rated: map<Device, int>)
      requires Distinct(ids) && forall c :: c in ids <==> c in device
      requires forall d :: d in rated ==> rated[d] > 0
      requires cfg.activationPeak >= 1.0 && cfg.pressureGrowth >= 1.0
      ensures Valid() && Served() && WithinBudget() && busy == map[]
    {
      this.ids, this.device, this.cfg, this.rated := ids, device, cfg, rated;
      child := map c | c in device :: Child(true, FRESH);
      resident, context, busy := map[], map[], map[];
      recycles, evictions, excused, heard := 0, 0, {}, [];
      new;
      forall dev | dev in rated ensures Fits(dev, DeviceMib(ids, device, resident, dev)) {
        NothingResident(ids, device, dev);
      }
    }

    static lemma {:induction false} NothingResident(ids: seq<CellId>, device: map<CellId, Device>, dev: Device)
      requires forall c :: c in ids ==> c in device
      ensures DeviceMib(ids, device, map[], dev) == 0
      decreases |ids|
    {
      if ids != [] { NothingResident(ids[..|ids| - 1], device, dev); }
    }

    // -- what the environment does ---------------------------------------------------------------

    /** Any children may die, at any moment. */
    method Deaths()
      requires Valid()
      modifies this`child
      ensures Valid() && Faded(old(child), child)
    {
      var dead: set<CellId> := *;
      child := map c | c in child :: if c in dead then child[c].(alive := false) else child[c];
    }

    /** The same children, some of them perhaps dead. */
    static ghost predicate Faded(before: map<CellId, Child>, after: map<CellId, Child>) {
      before.Keys == after.Keys && forall c :: c in after ==> after[c].held == before[c].held && (after[c].alive ==> before[c].alive)
    }

    /** Between passes other users of the cells may load, unload, restart or kill them. */
    method Between()
      requires Valid() && busy == map[]
      modifies this`child
      ensures Valid() && Served() && (old(WithinBudget()) ==> WithinBudget())
    {
      var other: map<CellId, Child> := *;
      child := map c | c in child :: if c in other then other[c] else child[c];
    }

    /** A cell's state changes; it still holds every session it held. */
    method Becomes(c: CellId, held: Held, ghost state: Pass)
      requires Sound(state) && c in device && child[c].held.sessions.Keys <= held.sessions.Keys
      modifies this`child
      ensures Sound(state) && child == old(child)[c := old(child)[c].(held := held)]
    {
      hide DeviceMib, Measured;
      child := child[c := child[c].(held := held)];
    }

    /** One cell's records are rewritten: it holds what they list, and every honest device has room. */
    method Rewrite(c: CellId, records: Records, ghost state: Pass)
      requires Sound(state) && c in device
      requires c in state.free && child[c].alive ==> records.Keys <= child[c].held.sessions.Keys
      requires forall dev :: dev in rated && dev !in excused ==> Fits(dev, DeviceMib(ids, device, resident[c := records], dev))
      modifies this`resident
      ensures Sound(state) && resident == old(resident)[c := records]
    {
      hide Measured, Served, DeviceMib, Fits;
      resident := resident[c := records];
    }

    /** A device is no longer vouched for. */
    method Excuse(dev: Device, ghost state: Pass)
      requires Sound(state)
      modifies this`excused
      ensures Sound(state) && excused == old(excused) + {dev}
    {
      hide Served, WithinBudget, Measured, Agrees;
      Doubt(dev, state);
    }

    // -- recycling -------------------------------------------------------------------------------

    /** Forget what a cell held and restart it; a cell out of restarts is left down. */
    method Recycle(c: CellId, ghost state: Pass)
      requires Sound(state) && c in device
      modifies this`child, this`resident, this`busy, this`recycles
      ensures Sound(state)
      ensures c !in resident && c !in busy
      ensures child == old(child)[c := child[c]] && resident == old(resident) - {c} && busy == old(busy) - {c}
      ensures recycles == old(recycles) + 1
      ensures c !in old(busy) ==> busy == old(busy)
    {
      var restarted: bool := *;
      ForgetKeeps(resident, c);
      resident, busy, recycles := resident - {c}, busy - {c}, recycles + 1;
      child := child[c := Child(restarted, FRESH)];
    }

    lemma ForgetKeeps(before: map<CellId, Records>, c: CellId)
      requires Valid()
      ensures forall dev :: DeviceMib(ids, device, before - {c}, dev) <= DeviceMib(ids, device, before, dev)
    {
      forall dev ensures DeviceMib(ids, device, before - {c}, dev) <= DeviceMib(ids, device, before, dev) {
        DeviceChange(ids, device, before, before - {c}, c, dev);
      }
    }

    // -- requests --------------------------------------------------------------------------------

    /** Send a control request and wait; a cell that dies or misses its deadline is recycled. What the
        child makes of a request it never answers does not matter: it is restarted empty. */
    method Ask(c: CellId, ghost state: Pass) returns (answered: bool)
      requires Sound(state) && c in device && c !in busy
      modifies this`child, this`resident, this`busy, this`recycles
      ensures Sound(state) && busy == old(busy)
      ensures answered ==> child[c].alive && resident == old(resident) && child[c].held == old(child)[c].held
      ensures !answered ==> resident == old(resident) - {c}
    {
      answered := *;
      Deaths();
      if !answered || !child[c].alive {
        Recycle(c, state);
        answered := false;
      }
    }

    /** Read a cell's device memory once per pass, and drop records of sessions it no longer holds. */
    method Memory(c: CellId, state: Pass) returns (ok: bool)
      requires Sound(state) && c in device && c !in busy && state.free.Keys == state.total.Keys
      modifies this`child, this`resident, this`busy, this`recycles, this`context, this`excused, state`free, state`total
      ensures Sound(state) && state.free.Keys == state.total.Keys
      ensures ok ==> c in state.free
      ensures ok && c !in old(state.free) ==>
        c in resident && resident[c].Keys == Get(old(resident), c, map[]).Keys * old(child)[c].held.sessions.Keys
      ensures !ok ==> c !in resident
      ensures busy == old(busy)
    {
      if c in state.free { return true; }
      var answered := Ask(c, state);
      if !answered { return false; }
      TakeReading(c, state);
      return true;
    }

    /** A stats answer: what is free, what is installed, and what the cell really holds. */
    method TakeReading(c: CellId, state: Pass)
      requires Sound(state) && c in device && c !in busy
      modifies this`resident, this`context, this`excused, state`free, state`total
      ensures Sound(state)
      ensures state.free.Keys == old(state.free).Keys + {c} && state.total.Keys == old(state.total).Keys + {c}
      ensures context == old(context)[c := child[c].held.context]
      ensures c in resident && resident == old(resident)[c := resident[c]]
      ensures resident[c].Keys == Get(old(resident), c, map[]).Keys * child[c].held.sessions.Keys
    {
      hide WithinBudget, Served;
      var free: nat, total: nat := *, *;
      var reply := StatsReply(child[c].held, free, total);
      DropStale(c, reply.resident);
      NoteReading(c, reply, state);
    }

    /** The numbers of a stats answer. A device read at another size is no longer vouched for. */
    method NoteReading(c: CellId, reply: Reply, state: Pass)
      requires Valid() && Agrees(state.free.Keys + {c}) && Served() && WithinBudget() && Measured(state)
      requires reply.CellStats? && c in device
      modifies this`context, this`excused, state`free, state`total
      ensures Sound(state) && context == old(context)[c := reply.context]
      ensures state.free == old(state.free)[c := reply.free] && state.total == old(state.total)[c := reply.total]
    {
      hide WithinBudget, Served;
      if device[c] in rated && reply.total != rated[device[c]] { Doubt(device[c], state); }
      context := context[c := reply.context];
      state.free, state.total := state.free[c := reply.free], state.total[c := reply.total];
    }

    ghost method Doubt(dev: Device, state: Pass)
      requires Valid() && WithinBudget() && Measured(state)
      modifies this`excused
      ensures Valid() && WithinBudget() && Measured(state) && excused == old(excused) + {dev}
    {
      hide DeviceMib, Fits;
      excused := excused + {dev};
    }

    /** Forget the records of sessions a cell says it does not hold: those it did not list. */
    method DropStale(c: CellId, listed: set<Digest>)
      requires Valid() && WithinBudget() && c in device
      modifies this`resident
      ensures Valid() && WithinBudget()
      ensures c in resident && resident == old(resident)[c := resident[c]]
      ensures resident[c] == map d | d in Get(old(resident), c, map[]) && d in listed :: Get(old(resident), c, map[])[d]
    {
      hide DeviceMib, CellMib;
      var records := Get(resident, c, map[]);
      var unseen := records.Keys;
      while unseen != {}
        invariant unseen <= Get(resident, c, map[]).Keys
        invariant records == map d | d in Get(resident, c, map[]) && (d in unseen || d in listed) :: Get(resident, c, map[])[d]
        decreases |unseen|
      {
        var d :| d in unseen;
        if d !in listed { records := records - {d}; }
        unseen := unseen - {d};
      }
      ReplaceShrinks(resident, c, records);
      resident := resident[c := records];
    }

    lemma ReplaceShrinks(before: map<CellId, Records>, c: CellId, records: Records)
      requires Valid()
      requires forall d :: d in records ==> d in Get(before, c, map[]) && records[d] == Get(before, c, map[])[d]
      ensures forall dev :: DeviceMib(ids, device, before[c := records], dev) <= DeviceMib(ids, device, before, dev)
    {
      TotalShrinks(Footprints(Get(before, c, map[])), Footprints(records));
      assert Footprints(map[]) == map[];
      forall dev ensures DeviceMib(ids, device, before[c := records], dev) <= DeviceMib(ids, device, before, dev) {
        DeviceChange(ids, device, before, before[c := records], c, dev);
      }
    }

    /** The session is gone from the cell and from the records of it. */
    method DropSession(c: CellId, digest: Digest, ghost state: Pass)
      requires Sound(state) && c in device && c !in busy && c in resident
      modifies this`child, this`resident
      ensures Sound(state)
      ensures resident == old(resident)[c := old(resident)[c] - {digest}]
      ensures child == old(child)[c := old(child)[c].(held := AfterUnload(old(child)[c].held, digest))]
    {
      ReplaceShrinks(resident, c, resident[c] - {digest});
      var held := child[c].held;
      child := child[c := child[c].(held := AfterUnload(held, digest))];
      resident := resident[c := resident[c] - {digest}];
    }

    /** Account for one eviction and what came back from it. */
    method Credit(c: CellId, returned: nat, state: Pass)
      requires Sound(state) && c in state.free
      modifies this`evictions, state`free
      ensures Sound(state) && state.free.Keys == old(state.free).Keys && state.free[c] == old(state.free)[c] + returned
    {
      evictions := evictions + 1;
      state.free := state.free[c := state.free[c] + returned];
    }

    /** The cell's answer to an unload, and whether it returned too little of what it held. */
    method Release(c: CellId, digest: Digest, reclaimRatio: real, state: Pass) returns (returned: nat, stuck: bool)
      requires Sound(state) && c in state.free && c in state.total && c in device && c !in busy
      requires c in resident && digest in resident[c]
      modifies this`child, this`resident, this`evictions, state`free
      ensures Sound(state)
      ensures resident == old(resident)[c := old(resident)[c] - {digest}]
      ensures state.free.Keys == old(state.free).Keys && state.free[c] == old(state.free)[c] + returned
      ensures var sessions := old(child)[c].held.sessions;
              var own := if digest in sessions then sessions[digest].mib else 0;
              stuck <==> TooLittle(returned, if own != 0 then own else old(resident)[c][digest].Footprint(), state.total[c], reclaimRatio)
    {
      hide WithinBudget, Agrees, Served, Measured, TooLittle, AfterUnload;
      var held := child[c].held;
      var freed: nat := *;
      var reply := UnloadReply(held, digest, freed);
      returned := reply.freed;
      var expected := if reply.expected != 0 then reply.expected else resident[c][digest].Footprint();
      stuck := TooLittle(returned, expected, state.total[c], reclaimRatio);
      DropSession(c, digest, state);
      Credit(c, returned, state);
    }

    /** Evict one session; an unload that returns too little of it recycles the cell. */
    method Unload(c: CellId, digest: Digest, reclaimRatio: real, state: Pass) returns (usable: bool, ghost freed: nat)
      requires Sound(state) && c in state.free && c in device && c !in busy && state.free.Keys == state.total.Keys
      requires c in resident && digest in resident[c]
      modifies this`child, this`resident, this`busy, this`recycles, this`evictions, state`free
      ensures Sound(state) && state.free.Keys == old(state.free).Keys && busy == old(busy)
      ensures usable ==> resident == old(resident)[c := old(resident)[c] - {digest}]
      ensures usable ==> state.free[c] == old(state.free)[c] + freed
      ensures !usable ==> c !in resident
    {
      var answered := Ask(c, state);
      if !answered { return false, 0; }
      var returned, stuck := Release(c, digest, reclaimRatio, state);
      if !stuck { return true, returned; }
      Recycle(c, state);
      return false, returned;
    }

    // -- admission and eviction ------------------------------------------------------------------

    /** What this component holds on the device a cell runs on, over every cell of that device. */
    method DeviceResidentMib(c: CellId) returns (mib: nat)
      requires Valid() && c in device
      ensures mib == DeviceMib(ids, device, resident, device[c])
    {
      mib := 0;
      for k := 0 to |ids|
        invariant mib == DeviceMib(ids[..k], device, resident, device[c])
      {
        assert ids[..k + 1][..k] == ids[..k];
        if device[ids[k]] == device[c] {
          var own := AddUp(Footprints(Get(resident, ids[k], map[])));
          assert Footprints(map[]) == map[];
          mib := mib + own;
        }
      }
      assert ids[..|ids|] == ids;
    }

    /** The device contexts of every cell on the device a cell runs on. */
    method DeviceContextMib(c: CellId) returns (mib: nat)
      requires Valid() && c in device
      ensures mib == DeviceContext(ids, device, context, device[c])
    {
      mib := 0;
      for k := 0 to |ids|
        invariant mib == DeviceContext(ids[..k], device, context, device[c])
      {
        assert ids[..k + 1][..k] == ids[..k];
        if device[ids[k]] == device[c] { mib := mib + Get(context, ids[k], 0); }
      }
      assert ids[..|ids|] == ids;
    }

    /** Whether one model fits on one cell right now. */
    method Admit(c: CellId, digest: Digest, estimate: int, policy: Policy, state: Pass) returns (a: Admission)
      requires Sound(state) && c in device && c in state.free && c in state.total
      requires policy.Valid() && policy.cfg == cfg
      ensures a == policy.Admit(digest, estimate, state.free[c], state.total[c],
                                DeviceMib(ids, device, resident, device[c]), DeviceContext(ids, device, context, device[c]))
      ensures a.required >= estimate
      ensures a.admitted && device[c] in rated && device[c] !in excused ==>
        Fits(device[c], DeviceMib(ids, device, resident, device[c]) + a.required)
    {
      hide Sound, Fits, DeviceMib, DeviceContext, AdmitMib, Policy.RequiredMib;
      JudgedFairly(c, state);
      var held := DeviceResidentMib(c);
      var contexts := DeviceContextMib(c);
      a := policy.Admit(digest, estimate, state.free[c], state.total[c], held, contexts);
      AdmitKeepsRequired(policy.RequiredMib(digest, estimate), state.free[c], state.total[c], held, contexts);
      if a.admitted && device[c] in rated && device[c] !in excused {
        AdmittedFits(cfg, a.required, state.free[c], state.total[c], held, contexts);
        WithinIsFitting(device[c], held + a.required);
      }
    }

    lemma AdmitKeepsRequired(required: int, free: int, total: int, held: int, contexts: int)
      ensures AdmitMib(cfg, required, free, total, held, contexts).required == required
    {
    }

    /** An honest device is judged by its real size. */
    lemma JudgedFairly(c: CellId, state: Pass)
      requires Sound(state) && c in device && c in state.total
      ensures Valid()
      ensures device[c] in rated && device[c] !in excused ==> state.total[c] == rated[device[c]] && rated[device[c]] > 0
    {
      hide WithinBudget, Agrees, Served;
    }

    lemma WithinIsFitting(dev: Device, mib: int)
      requires dev in rated && (mib <= 0 || mib as real <= rated[dev] as real * cfg.budgetPercent / 100.0)
      ensures Fits(dev, mib)
    {
    }

    /** The same sessions, each with what stands behind its model now and the load time measured for it, if any. */
    static predicate Refreshed(before: Records, after: Records, waiting: map<Digest, Waiting>, measured: map<Digest, real>) {
      after.Keys == before.Keys && forall d :: d in before ==>
        var w := if d in waiting then waiting[d] else Waiting(0, 0, false);
        after[d] == before[d].(queued := w.queued, priority := w.priority, leased := w.leased,
                               loadMs := if d in measured && measured[d] != 0.0 then measured[d] else before[d].loadMs)
    }

    /** Bring one cell's records up to date before they are priced; what they occupy does not change. */
    method RefreshStats(c: CellId, waiting: map<Digest, Waiting>, policy: Policy, ghost state: Pass) returns (records: Records)
      requires Sound(state) && c in device
      modifies this`resident
      ensures Sound(state) && resident == old(resident)[c := records]
      ensures Refreshed(Get(old(resident), c, map[]), records, waiting, policy.loadMs)
      ensures Footprints(records) == Footprints(Get(old(resident), c, map[]))
    {
      var before := Get(resident, c, map[]);
      records := map d | d in before ::
        var w := Get(waiting, d, Waiting(0, 0, false));
        before[d].(queued := w.queued, priority := w.priority, leased := w.leased,
                   loadMs := if Get(policy.loadMs, d, 0.0) != 0.0 then policy.loadMs[d] else before[d].loadMs);
      assert Footprints(records) == Footprints(before);
      SameFootprints(resident, c, records);
      Rewrite(c, records, state);
    }

    lemma SameFootprints(before: map<CellId, Records>, c: CellId, records: Records)
      requires Valid()
      requires Footprints(records) == Footprints(Get(before, c, map[]))
      ensures forall dev :: DeviceMib(ids, device, before[c := records], dev) == DeviceMib(ids, device, before, dev)
    {
      assert Footprints(map[]) == map[];
      forall dev ensures DeviceMib(ids, device, before[c := records], dev) == DeviceMib(ids, device, before, dev) {
        DeviceChange(ids, device, before, before[c := records], c, dev);
      }
    }

    /** Unload the chosen sessions one after another, as long as the cell stays usable. */
    method EvictAll(c: CellId, victims: seq<Digest>, reclaimRatio: real, state: Pass) returns (usable: bool, ghost freed: nat)
      requires Sound(state) && c in state.free && c in device && c !in busy && state.free.Keys == state.total.Keys
      requires c in resident && forall d :: d in victims ==> d in resident[c]
      requires forall i, j :: 0 <= i < j < |victims| ==> victims[i] != victims[j]
      modifies this`child, this`resident, this`busy, this`recycles, this`evictions, state`free
      ensures Sound(state) && state.free.Keys == old(state.free).Keys && busy == old(busy)
      ensures usable ==> resident == old(resident)[c := old(resident)[c] - Digests(victims)]
      ensures usable ==> state.free[c] == old(state.free)[c] + freed
      ensures !usable ==> c !in resident
    {
      hide Sound;
      usable, freed := true, 0;
      ghost var left := resident[c];
      var k := 0;
      while k < |victims| && usable
        invariant k <= |victims|
        invariant Sound(state) && state.free.Keys == old(state.free).Keys && busy == old(busy)
        invariant usable ==> left == old(resident)[c] - Digests(victims[..k]) && resident == old(resident)[c := left]
        invariant usable ==> state.free[c] == old(state.free)[c] + freed
        invariant !usable ==> c !in resident
      {
        assert victims[k] !in victims[..k];
        ghost var got: nat;
        usable, got := Unload(c, victims[k], reclaimRatio, state);
        freed, left := freed + got, left - {victims[k]};
        assert Digests(victims[..k + 1]) == Digests(victims[..k]) + {victims[k]};
        k := k + 1;
      }
      assert victims[..|victims|] == victims;
    }

    /** Evict some sessions of a cell. When it stays usable, its device's records lose what these were recorded to
        take. */
    method EvictChosen(c: CellId, chosen: seq<Digest>, reclaimRatio: real, state: Pass, ghost offers: map<Digest, Offer>)
      returns (usable: bool, ghost freed: nat)
      requires Sound(state) && c in state.free && c in device && c !in busy && state.free.Keys == state.total.Keys
      requires c in resident && forall d :: d in chosen ==> d in resident[c] && d in offers && offers[d].mib == resident[c][d].Footprint()
      requires forall i, j :: 0 <= i < j < |chosen| ==> chosen[i] != chosen[j]
      modifies this`child, this`resident, this`busy, this`recycles, this`evictions, state`free
      ensures Sound(state) && state.free.Keys == old(state.free).Keys && busy == old(busy)
      ensures usable ==> state.free[c] == old(state.free)[c] + freed
      ensures !usable ==> c !in resident
      ensures usable ==> c in resident && resident[c].Keys == old(resident)[c].Keys - Digests(chosen)
      ensures usable ==>
        DeviceMib(ids, device, resident, device[c]) == old(DeviceMib(ids, device, resident, device[c])) - Sum(offers, chosen)
    {
      hide WithinBudget, Agrees, Served, Measured;
      ghost var start := resident;
      usable, freed := EvictAll(c, chosen, reclaimRatio, state);
      if usable {
        EvictionSum(start[c], offers, chosen);
        DeviceChange(ids, device, start, resident, c, device[c]);
      }
    }

    /** Evict the cheapest sessions of a cell until the named shortfall is covered. When the cell stays
        usable, what the device's records lose is the footprint of what was chosen, and what the
        reading gains is what came back. */
    method EvictFor(c: CellId, shortfall: int, waiting: map<Digest, Waiting>, leased: set<Digest>,
                    policy: Policy, reclaimRatio: real, now: int, state: Pass)
      returns (usable: bool, ghost e: Eviction)
      requires Sound(state) && c in state.free && c in device && c !in busy && state.free.Keys == state.total.Keys
      modifies this`child, this`resident, this`busy, this`recycles, this`evictions, state`free
      ensures Sound(state) && state.free.Keys == old(state.free).Keys && busy == old(busy)
      ensures CheapestChosen(e, Get(old(resident), c, map[]), shortfall, waiting, leased, policy, now)
      ensures forall d :: d in e.victims ==> d !in leased
      ensures usable ==> state.free[c] == old(state.free)[c] + e.freed
      ensures !usable ==> c !in resident
      ensures usable ==> c in resident && resident[c].Keys == Get(old(resident), c, map[]).Keys - Digests(e.victims)
      ensures usable ==>
        DeviceMib(ids, device, resident, device[c]) == old(DeviceMib(ids, device, resident, device[c])) - e.released
    {
      hide WithinBudget, Agrees, Served, Measured, Refreshed, CheapestCover, DeviceMib, Sum;
      var records := RefreshStats(c, waiting, policy, state);
      SameFootprints(old(resident), c, records);
      var chosen := policy.Victims(shortfall, records, leased, now);
      ghost var offers := policy.Offers(records, leased, now);
      ChosenAreOffered(chosen, shortfall, offers);
      RefreshedKeys(Get(old(resident), c, map[]), records, waiting, policy.loadMs);
      ghost var freed: nat;
      usable, freed := EvictChosen(c, chosen, reclaimRatio, state, offers);
      e := Eviction(records, offers, chosen, Sum(offers, chosen), freed);
    }

    /** An eviction took the cheapest sessions that cover the shortfall, priced by what is known of them now. */
    static ghost predicate CheapestChosen(e: Eviction, before: Records, shortfall: int, waiting: map<Digest, Waiting>,
                                          leased: set<Digest>, policy: Policy, now: int)
      reads policy
    {
      && Refreshed(before, e.records, waiting, policy.loadMs) && e.offers == policy.Offers(e.records, leased, now)
      && CheapestCover(e.victims, shortfall, e.offers) && e.released == Sum(e.offers, e.victims)
    }

    /** The admission tried again after evictions; it succeeds once they covered the named shortfall. */
    method AdmitAgain(c: CellId, digest: Digest, estimate: int, policy: Policy, state: Pass,
                      ghost first: Admission, ghost released: nat, ghost freed: nat) returns (a: Admission)
      requires Sound(state) && c in device && c in state.free && c in state.total
      requires policy.Valid() && policy.cfg == cfg
      requires first.reason == NeedsEviction && first ==
        policy.Admit(digest, estimate, state.free[c] - freed, state.total[c],
                     DeviceMib(ids, device, resident, device[c]) + released, DeviceContext(ids, device, context, device[c]))
      ensures a.required >= estimate
      ensures a == policy.Admit(digest, estimate, state.free[c], state.total[c],
                                DeviceMib(ids, device, resident, device[c]), DeviceContext(ids, device, context, device[c]))
      ensures a.admitted && device[c] in rated && device[c] !in excused ==>
        Fits(device[c], DeviceMib(ids, device, resident, device[c]) + a.required)
      ensures freed >= released >= first.shortfall ==> a.admitted
    {
      if freed >= released >= first.shortfall {
        SecondAdmission(cfg, first.required, state.free[c] - freed, state.total[c],
                        DeviceMib(ids, device, resident, device[c]) + released,
                        DeviceContext(ids, device, context, device[c]), freed, released);
      }
      a := Admit(c, digest, estimate, policy, state);
    }

    /** Evict for a model that needs room, and admit it again. */
    method EvictAndAdmit(c: CellId, digest: Digest, estimate: int, waiting: map<Digest, Waiting>, leased: set<Digest>,
                         policy: Policy, reclaimRatio: real, now: int, state: Pass, first: Admission)
      returns (usable: bool, a: Admission, ghost e: Eviction)
      requires Sound(state) && c in state.free && c in device && c !in busy && state.free.Keys == state.total.Keys
      requires policy.Valid() && policy.cfg == cfg && first.reason == NeedsEviction
      requires first == policy.Admit(digest, estimate, state.free[c], state.total[c],
                                     DeviceMib(ids, device, resident, device[c]), DeviceContext(ids, device, context, device[c]))
      modifies this`child, this`resident, this`busy, this`recycles, this`evictions, state`free
      ensures Sound(state) && state.free.Keys == old(state.free).Keys && busy == old(busy)
      ensures usable && digest !in Get(old(resident), c, map[]) ==> digest !in Get(resident, c, map[])
      ensures usable ==> a.required >= estimate
      ensures usable ==> c in state.total && a == policy.Admit(digest, estimate, state.free[c], state.total[c],
                                DeviceMib(ids, device, resident, device[c]), DeviceContext(ids, device, context, device[c]))
      ensures !usable ==> c !in resident
      ensures usable && a.admitted && device[c] in rated && device[c] !in excused ==>
        Fits(device[c], DeviceMib(ids, device, resident, device[c]) + a.required)
      ensures CheapestChosen(e, Get(old(resident), c, map[]), first.shortfall, waiting, leased, policy, now)
      ensures usable ==> c in resident && resident[c].Keys == Get(old(resident), c, map[]).Keys - Digests(e.victims)
      ensures usable && e.freed >= e.released >= first.shortfall ==> a.admitted
    {
      hide WithinBudget, Agrees, Served, Measured, CheapestCover, Fits, AdmitMib, DeviceMib, DeviceContext, Sum, Policy.Admit, Digests, CheapestChosen;
      usable, e := EvictFor(c, first.shortfall, waiting, leased, policy, reclaimRatio, now, state);
      a := first;
      if usable {
        a := AdmitAgain(c, digest, estimate, policy, state, first, e.released, e.freed);
      }
    }

    /** Admit one model, evicting for it when it needs room. When the evictions cover the shortfall the
        first refusal named, and give back what they were recorded to hold, the second attempt succeeds. */
    method MakeRoom(c: CellId, digest: Digest, estimate: int, waiting: map<Digest, Waiting>, leased: set<Digest>,
                    policy: Policy, reclaimRatio: real, now: int, state: Pass)
      returns (usable: bool, a: Admission, ghost first: Admission, ghost e: Eviction)
      requires Sound(state) && c in state.free && c in device && c !in busy && state.free.Keys == state.total.Keys
      requires policy.Valid() && policy.cfg == cfg
      modifies this`child, this`resident, this`busy, this`recycles, this`evictions, state`free
      ensures Sound(state) && state.free.Keys == old(state.free).Keys && busy == old(busy)
      ensures usable && digest !in Get(old(resident), c, map[]) ==> digest !in Get(resident, c, map[])
      ensures usable ==> a.required >= estimate
      ensures usable ==> c in state.total && a == policy.Admit(digest, estimate, state.free[c], state.total[c],
                                DeviceMib(ids, device, resident, device[c]), DeviceContext(ids, device, context, device[c]))
      ensures !usable ==> c !in resident
      ensures usable && a.admitted && device[c] in rated && device[c] !in excused ==>
        Fits(device[c], DeviceMib(ids, device, resident, device[c]) + a.required)
      ensures first.admitted || first.reason == OverBudget ==> usable && a == first
      ensures first.reason == NeedsEviction ==> CheapestChosen(e, Get(old(resident), c, map[]), first.shortfall, waiting, leased, policy, now)
      ensures first.reason == NeedsEviction && usable ==>
        c in resident && resident[c].Keys == Get(old(resident), c, map[]).Keys - Digests(e.victims)
      ensures usable && first.reason == NeedsEviction && e.freed >= e.released >= first.shortfall ==> a.admitted
    {
      hide WithinBudget, Agrees, Served, Measured, Fits, AdmitMib, DeviceMib, DeviceContext, CheapestChosen, Digests;
      a := Admit(c, digest, estimate, policy, state);
      usable, first, e := true, a, Eviction(map[], map[], [], 0, 0);
      if a.reason == NeedsEviction {
        usable, a, e := EvictAndAdmit(c, digest, estimate, waiting, leased, policy, reclaimRatio, now, state, a);
      }
    }

    /** Note that a resident session was just used. */
    method Touch(c: CellId, digest: Digest, ghost state: Pass, now: int)
      requires Sound(state) && c in device && c in resident && digest in resident[c]
      modifies this`resident
      ensures Sound(state) && resident.Keys == old(resident).Keys
      ensures resident[c] == old(resident)[c][digest := old(resident)[c][digest].(lastUsed := now, hits := old(resident)[c][digest].hits + 1)]
    {
      var was := resident[c][digest];
      var records := resident[c][digest := was.(lastUsed := now, hits := was.hits + 1)];
      assert Footprints(records) == Footprints(resident[c]);
      SameFootprints(resident, c, records);
      resident := resident[c := records];
    }

    static lemma ChosenAreOffered(victims: seq<Digest>, need: int, offers: map<Digest, Offer>)
      requires CheapestCover(victims, need, offers)
      ensures forall d :: d in victims ==> d in offers
      ensures forall i, j :: 0 <= i < j < |victims| ==> victims[i] != victims[j]
    {
      NoRepeats(victims, offers);
    }

    static lemma RefreshedKeys(before: Records, after: Records, waiting: map<Digest, Waiting>, measured: map<Digest, real>)
      requires Refreshed(before, after, waiting, measured)
      ensures after.Keys == before.Keys
    {
    }

    static lemma NoRepeats(victims: seq<Digest>, offers: map<Digest, Offer>)
      requires CheapestFirst(victims, offers)
      ensures forall i, j :: 0 <= i < j < |victims| ==> victims[i] != victims[j]
    {
      RanksAreTotal();
      forall i, j | 0 <= i < j < |victims| ensures victims[i] != victims[j] {
        assert Cheaper(offers, victims[i], victims[j]);
      }
    }

    // -- loading ---------------------------------------------------------------------------------

    /** The cell works on a load; whatever it ends up holding, it still holds what it held. */
    method AnswerLoad(c: CellId, digest: Digest, fate: LoadFate, measured: nat, ghost state: Pass) returns (r: LoadReply)
      requires Sound(state) && c in device
      modifies this`child
      ensures Sound(state)
      ensures child == old(child)[c := old(child)[c].(held := AfterLoad(old(child)[c].held, digest, fate, measured))]
      ensures r.Ready? <==> digest in child[c].held.sessions
      ensures r.Ready? || r.Refused?
      ensures r.Ready? ==> r.mib == child[c].held.sessions[digest].mib
    {
      var held := child[c].held;
      Becomes(c, AfterLoad(held, digest, fate, measured), state);
      if digest in held.sessions {
        return Ready(held.sessions[digest].mib, held.sessions[digest].loadMs, 0);
      }
      match fate {
        case Builds(mib, ms) => return Ready(mib, ms, if held.established then 0 else measured);
        case Raises(code, error, kind, pressure) => return Refused(code, error, kind, pressure);
      }
    }

    /** Record a session that just became resident. A load that took more than it was admitted for
        takes its device out of the budget's promise. */
    method Remember(c: CellId, digest: Digest, stats: Stats, admission: Admission, ghost state: Pass)
      requires Sound(state) && c in device && digest !in Get(resident, c, map[])
      requires child[c].alive ==> digest in child[c].held.sessions
      requires admission.required >= stats.estimate
      requires device[c] in rated && device[c] !in excused ==>
        Fits(device[c], DeviceMib(ids, device, resident, device[c]) + admission.required)
      modifies this`resident, this`excused
      ensures Sound(state)
      ensures resident == old(resident)[c := Get(old(resident), c, map[])[digest := stats]]
    {
      hide WithinBudget, Agrees, Served, Measured, Fits;
      if stats.size > admission.required { Excuse(device[c], state); }
      RoomToRemember(c, digest, stats, admission.required);
      if c in state.free && child[c].alive { RecordsAgree(c, state); }
      Rewrite(c, Get(resident, c, map[])[digest := stats], state);
    }

    lemma LessFits(dev: Device, less: int, mib: int)
      requires dev in rated && less <= mib && Fits(dev, mib)
      ensures Fits(dev, less)
    {
    }

    /** A session that takes no more than it was admitted for leaves every honest device with room. */
    lemma RoomToRemember(c: CellId, digest: Digest, stats: Stats, required: int)
      requires Valid() && WithinBudget() && c in device && digest !in Get(resident, c, map[])
      requires device[c] in rated && device[c] !in excused ==>
        stats.Footprint() <= Max(required, 0) && Fits(device[c], DeviceMib(ids, device, resident, device[c]) + required)
      ensures forall dev :: dev in rated && dev !in excused ==>
        Fits(dev, DeviceMib(ids, device, resident[c := Get(resident, c, map[])[digest := stats]], dev))
    {
      hide Fits, DeviceMib;
      var records := Get(resident, c, map[]);
      OneMoreRecord(records, digest, stats);
      RememberFits(resident, c, records[digest := stats], Total(Footprints(records)) + stats.Footprint());
      if device[c] in rated && device[c] !in excused {
        var held := DeviceMib(ids, device, resident, device[c]);
        LessFits(device[c], held + stats.Footprint(), held + Max(required, 0));
      }
    }

    lemma RecordsAgree(c: CellId, state: Pass)
      requires Sound(state) && c in device && c in state.free && child[c].alive
      ensures Get(resident, c, map[]).Keys <= child[c].held.sessions.Keys
    {
    }

    static lemma OneMoreRecord(records: Records, digest: Digest, stats: Stats)
      requires digest !in records
      ensures Total(Footprints(records[digest := stats])) == Total(Footprints(records)) + stats.Footprint()
      ensures Total(Footprints(map[])) == 0
    {
      TotalInsert(Footprints(records), digest, stats.Footprint());
      assert Footprints(records[digest := stats]) == Footprints(records)[digest := stats.Footprint()];
    }

    lemma RememberFits(before: map<CellId, Records>, c: CellId, records: Records, mib: nat)
      requires Valid() && c in device && Total(Footprints(records)) == mib
      ensures forall dev ::
        DeviceMib(ids, device, before[c := records], dev)
        == DeviceMib(ids, device, before, dev) + (if device[c] == dev then mib - CellMib(before, c) else 0)
    {
      forall dev ensures
        DeviceMib(ids, device, before[c := records], dev)
        == DeviceMib(ids, device, before, dev) + (if device[c] == dev then mib - CellMib(before, c) else 0)
      {
        DeviceChange(ids, device, before, before[c := records], c, dev);
      }
    }

    /** Spend one of a device's loads of this pass. */
    method SpendLoad(c: CellId, state: Pass, ghost concurrency: int)
      requires Sound(state) && c in device && state.Counted(concurrency)
      requires device[c] in state.loadsLeft && state.loadsLeft[device[c]] > 0
      modifies state`loadsLeft, state`loadsSent
      ensures Sound(state) && state.Counted(concurrency)
      ensures state.loadsLeft == old(state.loadsLeft)[device[c] := old(state.loadsLeft)[device[c]] - 1]
    {
      var dev := device[c];
      state.loadsSent := state.loadsSent[dev := Get(state.loadsSent, dev, 0) + 1];
      state.loadsLeft := state.loadsLeft[dev := state.loadsLeft[dev] - 1];
    }

    /** Spend a load on an admitted model and wait for the cell. */
    method Load(c: CellId, digest: Digest, estimate: int, admission: Admission, waiting: Waiting,
                policy: Policy, state: Pass, ghost concurrency: int) returns (r: LoadReply)
      requires Sound(state) && c in device && c in state.free && c !in busy && digest !in Get(resident, c, map[])
      requires policy.Valid() && policy.cfg == cfg && admission.required >= estimate
      requires device[c] in rated && device[c] !in excused ==>
        Fits(device[c], DeviceMib(ids, device, resident, device[c]) + admission.required)
      requires state.Counted(concurrency) && device[c] in state.loadsLeft && state.loadsLeft[device[c]] > 0
      modifies this`child, this`resident, this`busy, this`recycles, this`context, this`excused
      modifies policy, state`free, state`loadsLeft, state`loadsSent
      ensures Sound(state) && state.Counted(concurrency) && busy == old(busy) && policy.Valid()
      ensures state.free.Keys == old(state.free).Keys
      ensures state.loadsLeft == old(state.loadsLeft)[device[c] := old(state.loadsLeft)[device[c]] - 1]
      ensures r.Ready? ==> c in resident && digest in resident[c] && resident[c].Keys == Get(old(resident), c, map[]).Keys + {digest}
      ensures r.NoReply? ==> c !in resident
      ensures r.Refused? || r.Unexpected? ==> resident == old(resident)
    {
      hide Sound, DeviceMib, Fits, Policy.Valid;
      SpendLoad(c, state, concurrency);
      var answered := Ask(c, state);
      if !answered { return NoReply; }
      r := LoadAnswered(c, digest, estimate, admission, waiting, policy, state);
    }

    /** A live cell answers a load, one way or another. */
    method LoadAnswered(c: CellId, digest: Digest, estimate: int, admission: Admission, waiting: Waiting,
                        policy: Policy, state: Pass) returns (r: LoadReply)
      requires Sound(state) && c in device && c in state.free && digest !in Get(resident, c, map[])
      requires policy.Valid() && admission.required >= estimate
      requires device[c] in rated && device[c] !in excused ==>
        Fits(device[c], DeviceMib(ids, device, resident, device[c]) + admission.required)
      modifies this`child, this`resident, this`context, this`excused, policy, state`free
      ensures Sound(state) && policy.Valid() && state.free.Keys == old(state.free).Keys && !r.NoReply?
      ensures r.Ready? ==> c in resident && digest in resident[c] && resident[c].Keys == Get(old(resident), c, map[]).Keys + {digest}
      ensures r.Refused? || r.Unexpected? ==> resident == old(resident)
    {
      hide Sound, Fits, Policy.Valid;
      var fate: LoadFate, measured: nat, odd: bool := *, *, *;
      r := AnswerLoad(c, digest, fate, measured, state);
      if odd { return Unexpected; }
      if r.Ready? {
        Loaded(c, digest, estimate, admission, waiting, r, policy, state);
      }
    }

    /** The reading of a cell's free memory, less what a load took. */
    method Take(c: CellId, mib: nat, state: Pass)
      requires Sound(state) && c in state.free
      modifies state`free
      ensures Sound(state) && state.free == old(state.free)[c := Max(old(state.free)[c] - mib, 0)]
    {
      hide WithinBudget, Served, Measured;
      state.free := state.free[c := Max(state.free[c] - mib, 0)];
    }

    /** Account for a load that succeeded. */
    method Loaded(c: CellId, digest: Digest, estimate: int, admission: Admission, waiting: Waiting,
                  r: LoadReply, policy: Policy, state: Pass)
      requires Sound(state) && c in device && c in state.free && digest !in Get(resident, c, map[]) && r.Ready?
      requires child[c].alive ==> digest in child[c].held.sessions
      requires policy.Valid() && admission.required >= estimate
      requires device[c] in rated && device[c] !in excused ==>
        Fits(device[c], DeviceMib(ids, device, resident, device[c]) + admission.required)
      modifies this`resident, this`context, this`excused, policy, state`free
      ensures Sound(state) && policy.Valid()
      ensures resident == old(resident)[c := Get(old(resident), c, map[])[digest :=
        Stats(r.mib, estimate, r.loadMs, waiting.queued, waiting.priority, state.now, state.now, 0, false)]]
      ensures context == if r.context != 0 then old(context)[c := r.context] else old(context)
      ensures state.free == old(state.free)[c := Max(old(state.free)[c] - r.mib, 0)]
    {
      hide Sound;
      if r.context != 0 { context := context[c := r.context]; }
      policy.RecordLoad(digest, r.mib, r.loadMs);
      Take(c, r.mib, state);
      Remember(c, digest, Stats(r.mib, estimate, r.loadMs, waiting.queued, waiting.priority, state.now, state.now, 0, false),
               admission, state);
    }

    // -- inference -------------------------------------------------------------------------------

    /** Hand a cell one job. The caller picks a digest its records say the cell holds. */
    method Send(c: CellId, digest: Digest, ghost state: Pass) returns (sent: bool)
      requires Sound(state) && c in device && c !in busy && c in state.free
      requires c in resident && digest in resident[c]
      modifies this`child, this`busy
      ensures Sound(state)
      ensures busy == if sent then old(busy)[c := digest] else old(busy)
    {
      Deaths();
      if !child[c].alive { return false; }
      busy := busy[c := digest];
      return true;
    }

    /** The cell is busy no more. */
    method Rest(c: CellId, ghost state: Pass)
      requires Sound(state)
      modifies this`busy
      ensures Sound(state) && busy == old(busy) - {c}
    {
      hide WithinBudget, Agrees, Measured;
      busy := busy - {c};
    }

    /** Wait for a busy cell's answer. It is never MODEL_NOT_RESIDENT: the session was there. */
    method Receive(c: CellId, ghost state: Pass) returns (r: Collected)
      requires Sound(state) && c in busy && c in device
      modifies this`child, this`busy, this`heard
      ensures Sound(state) && heard == old(heard) + [(c, r)]
      ensures busy == if r.Lost? then old(busy) else old(busy) - {c}
      ensures r.Got? ==> r.resident
    {
      r := Await(c, state);
      heard := heard + [(c, r)];
    }

    method Await(c: CellId, ghost state: Pass) returns (r: Collected)
      requires Sound(state) && c in busy && c in device
      modifies this`child, this`busy
      ensures Sound(state)
      ensures busy == if r.Lost? then old(busy) else old(busy) - {c}
      ensures r.Got? ==> r.resident
    {
      Deaths();
      var answered: bool, odd: bool := *, *;
      if !child[c].alive || !answered { return Lost; }
      var held, digest := child[c].held, busy[c];
      var fate: RunFate := *;
      Becomes(c, AfterInfer(held, digest, fate), state);
      Rest(c, state);
      if odd { return Odd; }
      return Got(InferAnswer(held, digest, fate), digest in held.sessions);
    }
  }

  /** One eviction: the records it was decided on, what could be evicted and at what price, what was chosen, what
      that was recorded to take, and what came back. */
  datatype Eviction = Eviction(records: Records, offers: map<Digest, Offer>, victims: seq<Digest>, released: nat, freed: nat)

  /** What a load came to, as the scheduler sees it. */
  datatype LoadReply =
    | NoReply
    | Unexpected
    | Refused(code: string, error: string, kind: ErrorClass, memoryPressure: bool)
    | Ready(mib: nat, loadMs: real, context: nat)

  /** What collecting a dispatched job came to; `resident` says whether the cell still held its session. */
  datatype Collected = Lost | Odd | Got(answer: Answer, resident: bool)

  /** The queue standing behind one digest: its depth, its priority, and whether a burst is unfinished. */
  datatype Waiting = Waiting(queued: int, priority: int, leased: bool)
}
