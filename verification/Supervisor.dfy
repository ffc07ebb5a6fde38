// The restart budget: a cell may be recycled a bounded number of times in any window, although only
// the recent part of its history is kept. Clocks read real seconds and never go back.

module Supervision {
  import R = Residency

  type CellId = string

  // -- sliding windows ---------------------------------------------------------------------------

  /** How many of the starts fall in a closed interval. */
  function CountIn(starts: seq<real>, from: real, to: real): nat {
    if starts == [] then 0
    else
      var last := starts[|starts| - 1];
      CountIn(starts[..|starts| - 1], from, to) + if from <= last <= to then 1 else 0
  }

  ghost predicate InOrder(starts: seq<real>) {
    forall i, j :: 0 <= i < j < |starts| ==> starts[i] <= starts[j]
  }

  /** Of any `max + 1` starts in a row, the first and the last are more than a window apart. */
  ghost predicate Spread(starts: seq<real>, max: int, window: real) {
    if max <= 0 then starts == []
    else forall i :: 0 <= i && i + max < |starts| ==> starts[i + max] - starts[i] > window
  }

  lemma {:induction false} NoneBefore(starts: seq<real>, k: nat, from: real, to: real)
    requires k <= |starts| && forall i :: 0 <= i < k ==> starts[i] < from
    ensures CountIn(starts, from, to) <= |starts| - k
    decreases |starts|
  {
    if k < |starts| { NoneBefore(starts[..|starts| - 1], k, from, to); }
    else if k > 0 { NoneBefore(starts[..|starts| - 1], k - 1, from, to); }
  }

  /** Spread-out starts never crowd an interval: no closed interval of a window's length holds more than
      `max` of them. */
  lemma {:induction false} NoWindowIsCrowded(starts: seq<real>, max: int, window: real, from: real)
    requires InOrder(starts) && Spread(starts, max, window)
    ensures CountIn(starts, from, from + window) <= R.Max(max, 0)
    decreases |starts|
  {
    if starts != [] {
      var n := |starts|;
      var front := starts[..n - 1];
      if from <= starts[n - 1] <= from + window {
        var k := if n > max then n - max else 0;
        forall i | 0 <= i < k ensures starts[i] < from {
          assert starts[i] <= starts[k - 1] && starts[k - 1 + max] - starts[k - 1] > window;
        }
        NoneBefore(starts, k, from, from + window);
      } else {
        NoWindowIsCrowded(front, max, window, from);
      }
    }
  }

  /** The starts a pruned history still remembers. */
  function Recent(history: seq<real>, cutoff: real): (kept: seq<real>)
    ensures forall i :: 0 <= i < |kept| ==> kept[i] >= cutoff && kept[i] in history
  {
    if history == [] then []
    else
      var last := history[|history| - 1];
      Recent(history[..|history| - 1], cutoff) + if last >= cutoff then [last] else []
  }

  /** What is stored is the tail of what happened, and everything before it has left the window. */
  ghost predicate Remembers(stored: seq<real>, starts: seq<real>, now: real, window: real) {
    && |stored| <= |starts| && stored == starts[|starts| - |stored|..]
    && (forall i :: 0 <= i < |starts| - |stored| ==> starts[i] < now - window)
    && InOrder(starts) && (forall i :: 0 <= i < |starts| ==> starts[i] <= now)
  }

  lemma {:induction false} RecentIsTail(history: seq<real>, cutoff: real)
    requires InOrder(history)
    ensures IsTail(Recent(history, cutoff), history, cutoff)
    decreases |history|
  {
    hide IsTail, Recent, InOrder;
    if history == [] {
      NothingRecent(history, cutoff);
      NoTail(cutoff);
    } else {
      var front, last := history[..|history| - 1], history[|history| - 1];
      FrontInOrder(history);
      RecentIsTail(front, cutoff);
      RecentSplits(history, front, last, cutoff);
      if last < cutoff {
        EarlierIsLess(history, cutoff);
        NoneKept(history, cutoff);
        EmptyTail(history, cutoff);
      } else {
        TailExtends(front, Recent(front, cutoff), last, cutoff);
      }
    }
  }

  lemma NothingRecent(history: seq<real>, cutoff: real)
    requires history == []
    ensures Recent(history, cutoff) == []
  {
  }

  lemma RecentSplits(history: seq<real>, front: seq<real>, last: real, cutoff: real)
    requires history != [] && front == history[..|history| - 1] && last == history[|history| - 1]
    ensures history == front + [last]
    ensures last >= cutoff ==> Recent(history, cutoff) == Recent(front, cutoff) + [last]
  {
  }

  /** A tail, everything before which lies before the cutoff. */
  predicate IsTail(kept: seq<real>, history: seq<real>, cutoff: real) {
    && |kept| <= |history| && kept == history[|history| - |kept|..]
    && forall i :: 0 <= i < |history| - |kept| ==> history[i] < cutoff
  }

  lemma NoTail(cutoff: real)
    ensures IsTail([], [], cutoff)
  {
  }

  lemma FrontInOrder(history: seq<real>)
    requires history != [] && InOrder(history)
    ensures InOrder(history[..|history| - 1])
  {
  }

  lemma EarlierIsLess(history: seq<real>, cutoff: real)
    requires history != [] && InOrder(history) && history[|history| - 1] < cutoff
    ensures forall i :: 0 <= i < |history| ==> history[i] < cutoff
  {
  }

  lemma EmptyTail(history: seq<real>, cutoff: real)
    requires forall i :: 0 <= i < |history| ==> history[i] < cutoff
    ensures IsTail([], history, cutoff)
  {
    assert history[|history|..] == [];
  }

  lemma TailExtends(front: seq<real>, kept: seq<real>, last: real, cutoff: real)
    requires IsTail(kept, front, cutoff)
    ensures IsTail(kept + [last], front + [last], cutoff)
  {
    var at := |front| - |kept|;
    assert (front + [last])[at..] == front[at..] + [last];
  }

  lemma {:induction false} NoneKept(history: seq<real>, cutoff: real)
    requires forall i :: 0 <= i < |history| ==> history[i] < cutoff
    ensures Recent(history, cutoff) == []
    decreases |history|
  {
    if history != [] { NoneKept(history[..|history| - 1], cutoff); }
  }

  lemma PruneRemembers(stored: seq<real>, starts: seq<real>, now: real, later: real, window: real)
    requires Remembers(stored, starts, now, window) && later >= now
    ensures Remembers(Recent(stored, later - window), starts, later, window)
  {
    hide Recent;
    forall i, j | 0 <= i < j < |stored| ensures stored[i] <= stored[j] {
      assert stored[i] == starts[|starts| - |stored| + i] && stored[j] == starts[|starts| - |stored| + j];
    }
    RecentIsTail(stored, later - window);
    TailOfTail(Recent(stored, later - window), stored, starts, later - window);
  }

  lemma TailOfTail(kept: seq<real>, stored: seq<real>, starts: seq<real>, cutoff: real)
    requires |kept| <= |stored| <= |starts| && kept == stored[|stored| - |kept|..] && stored == starts[|starts| - |stored|..]
    requires forall i :: 0 <= i < |stored| - |kept| ==> stored[i] < cutoff
    requires forall i :: 0 <= i < |starts| - |stored| ==> starts[i] < cutoff
    ensures kept == starts[|starts| - |kept|..]
    ensures forall i :: 0 <= i < |starts| - |kept| ==> starts[i] < cutoff
  {
    forall i | 0 <= i < |starts| - |kept| ensures starts[i] < cutoff {
      if i >= |starts| - |stored| { assert starts[i] == stored[i - (|starts| - |stored|)]; }
    }
  }

  /** A start allowed by the pruned history keeps the whole history spread out. */
  lemma StartStaysSpread(stored: seq<real>, starts: seq<real>, checked: real, at: real, max: int, window: real)
    requires Remembers(stored, starts, checked, window) && Spread(starts, max, window) && |stored| < max && at >= checked
    ensures Spread(starts + [at], max, window) && Remembers(stored + [at], starts + [at], at, window)
  {
    var all := starts + [at];
    forall i | 0 <= i && i + max < |all| ensures all[i + max] - all[i] > window {
      if i + max == |starts| {
        assert starts[i] < checked - window;
      } else {
        assert starts[i + max] - starts[i] > window;
      }
    }
    assert all[|all| - |stored + [at]|..] == stored + [at];
  }

  /** What is remembered is what falls in the window that ends now. */
  lemma {:induction false} RememberedIsCounted(stored: seq<real>, starts: seq<real>, now: real, window: real)
    requires Remembers(stored, starts, now, window) && (forall i :: 0 <= i < |stored| ==> stored[i] >= now - window) && window >= 0.0
    ensures CountIn(starts, now - window, now) == |stored|
    decreases |starts|
  {
    if starts != [] {
      var n := |starts|;
      if stored == [] {
        NoneBefore(starts, n, now - window, now);
      } else {
        assert stored[|stored| - 1] == starts[n - 1];
        assert stored[..|stored| - 1] == starts[..n - 1][n - |stored|..];
        RememberedIsCounted(stored[..|stored| - 1], starts[..n - 1], now, window);
      }
    }
  }

  // -- the supervisor ----------------------------------------------------------------------------

  datatype Recycled = Restarted | BudgetExhausted

  class Supervisor {
    const maxRestarts: int
    const window: real
    const cells: seq<CellId>
    var begun: bool
    /** Whether each cell's handle is alive and unbroken. */
    var alive: map<CellId, bool>
    /** What is kept of each cell's recent restarts. */
    var restarts: map<CellId, seq<real>>
    var exhausted: set<CellId>
    var recycleCount: nat
    var clock: real
    /** Every restart there ever was. */
    ghost var starts: map<CellId, seq<real>>

    constructor (cells: seq<CellId>, maxRestarts: int, window: real, clock: real)
      requires window >= 0.0
      ensures Valid() && this.cells == cells && this.maxRestarts == maxRestarts && this.window == window && !begun
    {
      this.cells, this.maxRestarts, this.window, this.clock := cells, maxRestarts, window, clock;
      begun, alive, restarts, exhausted, recycleCount := false, map c | c in cells :: false, map[], {}, 0;
      starts := map[];
    }

    ghost predicate Valid()
      reads this
    {
      && window >= 0.0 && alive.Keys == (set c | c in cells)
      && (forall c :: Remembers(R.Get(restarts, c, []), R.Get(starts, c, []), clock, window))
      && (forall c :: Spread(R.Get(starts, c, []), maxRestarts, window))
    }

    /** The clock moves on; children may die. */
    method Pass()
      requires Valid()
      modifies this`clock, this`alive
      ensures Valid() && clock >= old(clock) && alive.Keys == old(alive).Keys
    {
      var later: real := *;
      if later > clock { clock := later; }
      var dead: set<CellId> := *;
      alive := map c | c in alive :: alive[c] && c !in dead;
    }

    /** Bring every cell up. */
    method Begin()
      requires Valid()
      modifies this`begun, this`alive
      ensures Valid() && begun && forall c :: c in alive ==> alive[c]
    {
      begun, alive := true, map c | c in alive :: true;
    }

    /** Keep only the starts that still count against the budget. */
    method Prune(c: CellId)
      requires Valid()
      modifies this`restarts
      ensures Valid()
      ensures restarts == if R.Get(old(restarts), c, []) == [] then old(restarts) else old(restarts)[c := Recent(old(restarts)[c], clock - window)]
      ensures forall i :: 0 <= i < |R.Get(restarts, c, [])| ==> R.Get(restarts, c, [])[i] >= clock - window
    {
      hide Recent, Remembers;
      if R.Get(restarts, c, []) == [] { return; }
      PruneRemembers(restarts[c], R.Get(starts, c, []), clock, clock, window);
      restarts := restarts[c := Recent(restarts[c], clock - window)];
    }

    /** How many recycles one cell has left: the budget less the restarts in the window that ends now. */
    method RestartsRemaining(c: CellId) returns (left: int)
      requires Valid()
      modifies this`restarts
      ensures Valid() && left == R.Max(maxRestarts - CountIn(R.Get(starts, c, []), clock - window, clock), 0)
    {
      Prune(c);
      RememberedIsCounted(R.Get(restarts, c, []), R.Get(starts, c, []), clock, window);
      return R.Max(maxRestarts - |R.Get(restarts, c, [])|, 0);
    }

    /** Take one cell down and bring it back, unless the window that ends now holds the whole budget of restarts:
        then it is left down. */
    method Recycle(c: CellId) returns (r: Recycled)
      requires Valid() && c in alive
      modifies this
      ensures Valid() && begun == old(begun) && clock >= old(clock) && recycleCount == old(recycleCount) + 1
      ensures alive.Keys == old(alive).Keys && forall o :: o in alive && o != c ==> alive[o] == old(alive)[o]
      ensures r.Restarted? ==> alive[c] && exhausted == old(exhausted)
                               && starts == old(starts)[c := R.Get(old(starts), c, []) + [clock]]
      ensures r.BudgetExhausted? <==> CountIn(R.Get(old(starts), c, []), old(clock) - window, old(clock)) >= maxRestarts
      ensures r.BudgetExhausted? ==> !alive[c] && exhausted == old(exhausted) + {c} && starts == old(starts)
    {
      hide Remembers, Spread, Recent;
      alive, recycleCount := alive[c := false], recycleCount + 1;
      Prune(c);
      RememberedIsCounted(R.Get(restarts, c, []), R.Get(starts, c, []), clock, window);
      var history := R.Get(restarts, c, []);
      if |history| >= maxRestarts {
        exhausted := exhausted + {c};
        return BudgetExhausted;
      }
      Tick();
      Stamp(c);
      return Restarted;
    }

    /** Bring a cell back within its budget, and remember when. */
    method Stamp(c: CellId)
      requires Valid() && c in alive && |R.Get(restarts, c, [])| < maxRestarts
      modifies this`restarts, this`starts, this`alive
      ensures Valid() && alive == old(alive)[c := true]
      ensures starts == old(starts)[c := R.Get(old(starts), c, []) + [clock]]
    {
      hide Remembers, Spread;
      ghost var was := R.Get(starts, c, []);
      var history := R.Get(restarts, c, []);
      StartStaysSpread(history, was, clock, clock, maxRestarts, window);
      restarts, starts, alive := restarts[c := history + [clock]], starts[c := was + [clock]], alive[c := true];
      assert R.Get(restarts, c, []) == history + [clock] && R.Get(starts, c, []) == was + [clock];
      assert forall o :: o != c ==> R.Get(starts, o, []) == R.Get(old(starts), o, []) && R.Get(restarts, o, []) == R.Get(old(restarts), o, []);
    }

    /** Between the check and the stamp the clock may move on. */
    method Tick()
      requires Valid()
      modifies this`clock
      ensures Valid() && clock >= old(clock)
    {
      var later: real := *;
      if later > clock { clock := later; }
    }

    /** Restart any cell whose child has died and whose budget is not spent. */
    method Check() returns (recycled: nat)
      requires Valid()
      modifies this
      ensures Valid() && recycled <= |cells| && begun == old(begun)
      ensures forall c :: c in alive && old(alive)[c] ==> alive[c]
      ensures forall c :: c in cells ==> alive[c] || c in exhausted
    {
      recycled := 0;
      for k := 0 to |cells|
        invariant Valid() && recycled <= k && begun == old(begun) && alive.Keys == old(alive).Keys && old(exhausted) <= exhausted
        invariant forall c :: c in alive && old(alive)[c] ==> alive[c]
        invariant forall j :: 0 <= j < k ==> alive[cells[j]] || cells[j] in exhausted
      {
        var c := cells[k];
        if c !in exhausted && !alive[c] {
          var r := Recycle(c);
          if r.Restarted? { recycled := recycled + 1; }
        }
      }
    }

    /** Whether the executor boundary can serve work. */
    method Healthy() returns (ok: bool)
      ensures ok <==> begun && cells != [] && exhausted == {} && forall c :: c in cells ==> c in alive && alive[c]
    {
      if !begun || cells == [] { return false; }
      if exhausted != {} { return false; }
      return forall c :: c in cells ==> c in alive && alive[c];
    }

    /** In every closed interval as long as the window, over the whole run, a cell was restarted at most
        `max_restarts` times. */
    lemma WindowHolds(c: CellId, from: real)
      requires Valid()
      ensures CountIn(R.Get(starts, c, []), from, from + window) <= R.Max(maxRestarts, 0)
    {
      NoWindowIsCrowded(R.Get(starts, c, []), maxRestarts, window, from);
    }
  }
}
