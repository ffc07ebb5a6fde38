// Device-memory admission and cost-aware eviction. Prices and factors are reals; memory is whole MiB.

module Residency {
  import opened Ordering

  type Digest = string

  /** A resident session as eviction sees it. */
  datatype Stats = Stats(
    size: int, estimate: int, loadMs: real, queued: int, priority: int,
    lastUsed: int, loadedAt: int, hits: int, leased: bool)
  {
    /** What evicting it should give back: the larger of size and estimate. */
    function Footprint(): (mib: nat)
      ensures mib >= size && mib >= estimate
    {
      if size >= estimate && size >= 0 then size else if estimate >= 0 then estimate else 0
    }
  }

  datatype Settings = Settings(
    budgetPercent: real, reserve: int, minResidencySecs: real, hotTtlSecs: real,
    activationPeak: real, colocated: int,
    queuedWeight: real, reuseWeight: real, reloadWeight: real, priorityWeight: real, recencyWeight: real,
    pressureGrowth: real)

  datatype Reason = Admitted | NeedsEviction | OverBudget | NoDeviceAccounting

  datatype Admission = Admission(admitted: bool, required: int, shortfall: int, reason: Reason)

  function Max(a: int, b: int): int { if a >= b then a else b }

  function Get<K, V>(m: map<K, V>, k: K, default: V): V { if k in m then m[k] else default }

  /** The smallest integer not below x. */
  function Ceil(x: real): (n: int)
    ensures x <= n as real < x + 1.0
  {
    -((-x).Floor)
  }

  /** int(): truncation toward zero. */
  function Trunc(x: real): int { if x >= 0.0 then x.Floor else Ceil(x) }

  function Power(base: real, n: nat): real { if n == 0 then 1.0 else base * Power(base, n - 1) }

  lemma {:induction false} PowerGrows(base: real, n: nat)
    requires base >= 1.0
    ensures Power(base, n) >= 1.0
  {
    if n > 0 {
      PowerGrows(base, n - 1);
      ScaleUp(base, Power(base, n - 1));
    }
  }

  lemma ScaleUp(x: real, factor: real)
    requires x >= 0.0 && factor >= 1.0
    ensures x * factor >= x
  {
    var more := factor - 1.0;
    assert x * factor == x + x * more;
    Product(x, more);
  }

  lemma Product(x: real, y: real)
    requires x >= 0.0 && y >= 0.0
    ensures x * y >= 0.0
  {
  }

  // -- admission ---------------------------------------------------------------------------------

  /** The share of a device this component may fill with models. */
  function DeviceBudget(cfg: Settings, total: int): int {
    Trunc(total as real * cfg.budgetPercent / 100.0)
  }

  /** Memory with headroom for activations, and for as many failures as were recorded. */
  function Inflated(cfg: Settings, base: real, pressure: nat): real {
    if pressure > 0 then base * cfg.activationPeak * Power(cfg.pressureGrowth, pressure) else base * cfg.activationPeak
  }

  function Required(cfg: Settings, estimate: int, measured: int, pressure: nat): int {
    Ceil(Inflated(cfg, Max(estimate, measured) as real, pressure))
  }

  /** A request is the least that covers the larger of estimate and measured peak, times the activation
      factor, and times the growth once for every recorded failure. */
  lemma RequiredIsLeast(cfg: Settings, estimate: int, measured: int, pressure: nat, mib: int)
    ensures mib >= Required(cfg, estimate, measured, pressure)
      <==> mib as real >= Max(estimate, measured) as real * cfg.activationPeak * Power(cfg.pressureGrowth, pressure)
    ensures Power(cfg.pressureGrowth, 0) == 1.0
    ensures Power(cfg.pressureGrowth, pressure + 1) == Power(cfg.pressureGrowth, pressure) * cfg.pressureGrowth
  {
    var x := Inflated(cfg, Max(estimate, measured) as real, pressure);
    assert x == Max(estimate, measured) as real * cfg.activationPeak * Power(cfg.pressureGrowth, pressure);
    hide Inflated, Power;
    LeastAbove(x, mib);
  }

  lemma LeastAbove(x: real, n: int)
    ensures n >= Ceil(x) <==> n as real >= x
  {
  }

  lemma CeilCovers(x: real, least: int)
    requires x >= least as real
    ensures Ceil(x) >= least
  {
  }

  lemma Inflates(base: real, peak: real, power: real)
    requires base >= 0.0 && peak >= 1.0 && power >= 1.0
    ensures base * peak >= base && base * peak * power >= base
  {
    ScaleUp(base, peak);
    ScaleUp(base * peak, power);
  }

  lemma InflatedCovers(cfg: Settings, base: real, pressure: nat)
    requires cfg.activationPeak >= 1.0 && cfg.pressureGrowth >= 1.0 && base >= 0.0
    ensures Inflated(cfg, base, pressure) >= base
  {
    PowerGrows(cfg.pressureGrowth, pressure);
    hide Power;
    Inflates(base, cfg.activationPeak, Power(cfg.pressureGrowth, pressure));
  }

  /** Factors of at least one never ask for less than the manifest estimate. */
  lemma RequiredCoversEstimate(cfg: Settings, estimate: int, measured: int, pressure: nat)
    requires cfg.activationPeak >= 1.0 && cfg.pressureGrowth >= 1.0
    requires measured >= 0
    ensures Required(cfg, estimate, measured, pressure) >= Max(estimate, measured)
  {
    hide Inflated, Ceil;
    var base := Max(estimate, measured);
    InflatedCovers(cfg, base as real, pressure);
    CeilCovers(Inflated(cfg, base as real, pressure), base);
  }

  /** Powers of a factor between zero and one fall at least like 1 / (1 + n (1 - base)). */
  lemma {:induction false} PowerShrinks(base: real, n: nat)
    requires 0.0 <= base < 1.0
    ensures 0.0 <= Power(base, n) <= 1.0
    ensures Power(base, n) * (1.0 + n as real * (1.0 - base)) <= 1.0
  {
    if n > 0 {
      PowerShrinks(base, n - 1);
      var gap := 1.0 - base;
      assert n as real * gap == (n - 1) as real * gap + gap;
      ShrinkStep(base, Power(base, n - 1), (n - 1) as real * gap);
    }
  }

  lemma ShrinkStep(base: real, power: real, drop: real)
    requires 0.0 <= base < 1.0 && 0.0 <= power <= 1.0 && power * (1.0 + drop) <= 1.0
    ensures 0.0 <= base * power <= 1.0
    ensures base * power * (1.0 + (drop + (1.0 - base))) <= 1.0
  {
    var kept, next, gap := power * (1.0 + drop), base * power, 1.0 - base;
    ScaleDown(kept, base);
    ScaleDown(power, base);
    ScaleDown(next, gap);
    assert next * (1.0 + (drop + gap)) == kept * base + next * gap;
    SharesOfOne(next * (1.0 + (drop + gap)), kept * base, next * gap, base);
  }

  lemma SharesOfOne(whole: real, left: real, right: real, share: real)
    requires whole == left + right && left <= share && right <= 1.0 - share
    ensures whole <= 1.0
  {
  }

  lemma ScaleDown(x: real, y: real)
    requires x <= 1.0 && y >= 0.0
    ensures x * y <= y
  {
    assert y - x * y == (1.0 - x) * y;
  }

  /** Every request covers what it must exactly when neither factor is below one. */
  lemma FactorsCoverExactly(cfg: Settings)
    ensures cfg.activationPeak >= 1.0 && cfg.pressureGrowth >= 1.0
      <==> forall estimate, measured: nat, pressure :: Required(cfg, estimate, measured, pressure) >= Max(estimate, measured)
  {
    if cfg.activationPeak < 1.0 {
      PeakUndercuts(cfg);
    } else if cfg.pressureGrowth < 1.0 {
      GrowthUndercuts(cfg);
    } else {
      forall estimate, measured: nat, pressure
        ensures Required(cfg, estimate, measured, pressure) >= Max(estimate, measured)
      {
        RequiredCoversEstimate(cfg, estimate, measured, pressure);
      }
    }
  }

  lemma PeakUndercuts(cfg: Settings)
    requires cfg.activationPeak < 1.0
    ensures exists estimate :: Required(cfg, estimate, 0, 0) < Max(estimate, 0)
  {
    var gap := 1.0 - cfg.activationPeak;
    var e := Max(Ceil(1.0 / gap), 1);
    assert e as real * gap >= 1.0;
    assert e as real * cfg.activationPeak == e as real - e as real * gap;
    assert Required(cfg, e, 0, 0) < e;
  }

  lemma GrowthUndercuts(cfg: Settings)
    requires cfg.activationPeak >= 1.0 && cfg.pressureGrowth < 1.0
    ensures exists estimate, pressure :: Required(cfg, estimate, 0, pressure) < Max(estimate, 0)
  {
    var base, peak := cfg.pressureGrowth, cfg.activationPeak;
    if base < 0.0 {
      assert Power(base, 1) == base * Power(base, 0) == base;
      assert peak * base < 0.0;
      assert Required(cfg, 1, 0, 1) < Max(1, 0);
    } else {
      var gap := 1.0 - base;
      var n := Max(Ceil(2.0 * peak / gap), 1);
      assert n as real * gap >= 2.0 * peak;
      PowerShrinks(base, n);
      var p := Power(base, n);
      assert p * (1.0 + n as real * gap) >= p * (1.0 + 2.0 * peak);
      assert p * (1.0 + 2.0 * peak) == p + 2.0 * peak * p;
      assert 2.0 * peak * p <= 1.0;
      assert Required(cfg, 2, 0, n) < Max(2, 0);
    }
  }

  /** Whether a model needing `required` MiB fits right now. */
  function AdmitMib(cfg: Settings, required: int, free: int, total: int, resident: int, context: int): (a: Admission)
    ensures a.admitted <==> a.reason.Admitted? || a.reason.NoDeviceAccounting?
  {
    if total <= 0 && free <= 0 then Admission(true, required, 0, NoDeviceAccounting)
    else
      var short := Max(required - (free - cfg.reserve - cfg.colocated), 0);
      var budget := Max(DeviceBudget(cfg, total) - context, 0);
      if total > 0 && required > budget then Admission(false, required, Max(required - budget, 0), OverBudget)
      else
        var shortfall := if total > 0 then Max(short, resident + required - budget) else short;
        if shortfall > 0 then Admission(false, required, shortfall, NeedsEviction)
        else Admission(true, required, 0, Admitted)
  }

  /** So much memory, if it is any, is within the configured percentage of a device. */
  predicate WithinShare(percent: real, total: int, mib: int) {
    mib <= 0 || mib as real <= total as real * percent / 100.0
  }

  /** The budget of a device is the configured percentage of it, in whole MiB. */
  lemma BudgetIsTheShare(cfg: Settings, total: int)
    requires total > 0
    ensures cfg.budgetPercent >= 0.0 ==>
      DeviceBudget(cfg, total) as real <= total as real * cfg.budgetPercent / 100.0 < (DeviceBudget(cfg, total) + 1) as real
    ensures forall mib :: WithinShare(cfg.budgetPercent, total, mib) <==> mib <= Max(DeviceBudget(cfg, total), 0)
  {
    var share := total as real * cfg.budgetPercent / 100.0;
    if cfg.budgetPercent >= 0.0 {
      Product(total as real, cfg.budgetPercent);
    } else {
      Product(total as real, -cfg.budgetPercent);
      assert share <= 0.0;
    }
  }

  /** What is asked for, and what of the device is or would be taken by models, once `back` MiB came back. */
  predicate Fitting(cfg: Settings, required: int, free: int, total: int, resident: int, context: int, back: int) {
    && required - back <= free - cfg.reserve - cfg.colocated
    && (total > 0 && resident + required - back > 0 ==>
          WithinShare(cfg.budgetPercent, total, resident + required - back + context))
  }

  /** A model is refused for good exactly when it does not fit the budget of an empty device. Otherwise it
      is admitted exactly when it fits what is left, and the shortfall is the least that must come back. */
  lemma AdmissionExactly(cfg: Settings, required: int, free: int, total: int, resident: int, context: int)
    requires context >= 0 && (total > 0 || free > 0)
    ensures var a := AdmitMib(cfg, required, free, total, resident, context);
      && (a.reason == OverBudget <==> total > 0 && required > 0 && !WithinShare(cfg.budgetPercent, total, required + context))
      && (a.admitted <==> a.reason != OverBudget && Fitting(cfg, required, free, total, resident, context, 0))
      && (a.reason == NeedsEviction ==>
            forall back :: back >= a.shortfall <==> back > 0 && Fitting(cfg, required, free, total, resident, context, back))
      && (a.reason == OverBudget ==>
            forall mib :: mib > context && WithinShare(cfg.budgetPercent, total, mib) ==> required - (mib - context) >= a.shortfall)
      && (a.reason == OverBudget ==>
            0 < a.shortfall <= required
            && (a.shortfall < required ==> WithinShare(cfg.budgetPercent, total, required - a.shortfall + context)))
  {
    hide DeviceBudget, WithinShare;
    if total > 0 { BudgetIsTheShare(cfg, total); }
  }

  /** On a device whose size is known, admission keeps what is resident within the configured percentage. */
  lemma AdmittedFits(cfg: Settings, required: int, free: int, total: int, resident: int, context: int)
    requires total > 0 && context >= 0
    requires AdmitMib(cfg, required, free, total, resident, context).admitted
    ensures resident + required <= 0 || (resident + required) as real <= total as real * cfg.budgetPercent / 100.0
    ensures required <= free - cfg.reserve - cfg.colocated
  {
    hide DeviceBudget;
    BudgetIsTheShare(cfg, total);
    assert WithinShare(cfg.budgetPercent, total, resident + required);
  }

  /** Once evictions return the named shortfall, the same request is admitted. */
  lemma SecondAdmission(cfg: Settings, required: int, free: int, total: int, resident: int, context: int,
                        freed: int, released: int)
    requires var first := AdmitMib(cfg, required, free, total, resident, context);
             first.reason == NeedsEviction && released >= first.shortfall && freed >= released
    ensures AdmitMib(cfg, required, free + freed, total, resident - released, context).admitted
  {
  }

  // -- eviction ----------------------------------------------------------------------------------

  /** Retained value: queued work, reuse, reload cost, priority, and recency inside the hot window. */
  function Value(cfg: Settings, s: Stats, reloadMs: real, now: int): real {
    Weighted(cfg.queuedWeight, s.queued as real) + Weighted(cfg.reuseWeight, s.hits as real)
      + Weighted(cfg.reloadWeight, reloadMs / 1000.0) + Weighted(cfg.priorityWeight, s.priority as real / 100.0)
      + Weighted(cfg.recencyWeight, Recency(cfg, s.lastUsed, now))
  }

  /** One just after a use, falling to zero over the hot window. */
  function Recency(cfg: Settings, lastUsed: int, now: int): (share: real)
    ensures cfg.hotTtlSecs > 0.0 ==> 0.0 <= share
  {
    var idle := Max(now - lastUsed, 0) as real / 1000.0;
    if cfg.hotTtlSecs > 0.0 && 1.0 - idle / cfg.hotTtlSecs > 0.0 then 1.0 - idle / cfg.hotTtlSecs else 0.0
  }

  function Weighted(weight: real, amount: real): real {
    weight * amount
  }

  lemma Scales(weight: real, less: real, more: real)
    requires less < more
    ensures Weighted(weight, less) < Weighted(weight, more) <==> weight > 0.0
  {
    assert weight * more - weight * less == weight * (more - less);
  }

  /** More queued work, more reuse, a higher priority, a longer reload or a more recent use makes a session
      worth more, each exactly when it is given a positive weight. */
  lemma WorthMore(cfg: Settings, s: Stats, reloadMs: real, now: int, more: int, longer: real)
    ensures more > s.queued ==> (Value(cfg, s.(queued := more), reloadMs, now) > Value(cfg, s, reloadMs, now) <==> cfg.queuedWeight > 0.0)
    ensures more > s.hits ==> (Value(cfg, s.(hits := more), reloadMs, now) > Value(cfg, s, reloadMs, now) <==> cfg.reuseWeight > 0.0)
    ensures more > s.priority ==> (Value(cfg, s.(priority := more), reloadMs, now) > Value(cfg, s, reloadMs, now) <==> cfg.priorityWeight > 0.0)
    ensures longer > reloadMs ==> (Value(cfg, s, longer, now) > Value(cfg, s, reloadMs, now) <==> cfg.reloadWeight > 0.0)
    ensures now >= more > s.lastUsed && cfg.hotTtlSecs > (now - more) as real / 1000.0 ==>
      (Value(cfg, s.(lastUsed := more), reloadMs, now) > Value(cfg, s, reloadMs, now) <==> cfg.recencyWeight > 0.0)
  {
    hide Weighted, Recency;
    if more > s.queued { Scales(cfg.queuedWeight, s.queued as real, more as real); }
    if more > s.hits { Scales(cfg.reuseWeight, s.hits as real, more as real); }
    if more > s.priority { Scales(cfg.priorityWeight, s.priority as real / 100.0, more as real / 100.0); }
    if longer > reloadMs { Scales(cfg.reloadWeight, reloadMs / 1000.0, longer / 1000.0); }
    if now >= more > s.lastUsed && cfg.hotTtlSecs > (now - more) as real / 1000.0 {
      MoreRecent(cfg, s.lastUsed, more, now);
      Scales(cfg.recencyWeight, Recency(cfg, s.lastUsed, now), Recency(cfg, more, now));
    }
  }

  lemma MoreRecent(cfg: Settings, earlier: int, later: int, now: int)
    requires now >= later > earlier && cfg.hotTtlSecs > (now - later) as real / 1000.0
    ensures Recency(cfg, earlier, now) < Recency(cfg, later, now)
  {
    var idle, ttl := (now - later) as real / 1000.0, cfg.hotTtlSecs;
    Divides(idle, (now - earlier) as real / 1000.0, ttl);
    Divides(idle, ttl, ttl);
    Whole(ttl);
  }

  lemma Whole(x: real)
    requires x > 0.0
    ensures x / x == 1.0
  {
  }

  lemma Divides(x: real, y: real, whole: real)
    requires whole > 0.0
    ensures x / whole < y / whole <==> x < y
  {
    var a, b := x / whole, y / whole;
    assert a * whole == x && b * whole == y;
    assert (b - a) * whole == y - x;
  }

  lemma DividesLess(x: real, part: real, whole: real)
    requires x > 0.0 && 0.0 < part < whole
    ensures x / whole < x / part
  {
    var a, b := x / whole, x / part;
    assert a * whole == x && b * part == x;
    assert b > 0.0;
    assert b * (whole - part) > 0.0;
    assert (b - a) * whole > 0.0;
  }

  function PerMib(value: real, mib: nat): real {
    value / Max(mib, 1) as real
  }

  /** Per MiB: the worth of two sessions that take the same is ordered as their values are, and of two that
      are worth the same, and something, the larger is the cheaper. */
  lemma DensityOrders(value: real, other: real, mib: nat, larger: nat)
    ensures PerMib(value, mib) < PerMib(other, mib) <==> value < other
    ensures value > 0.0 && Max(mib, 1) < larger ==> PerMib(value, larger) < PerMib(value, mib)
  {
    Divides(value, other, Max(mib, 1) as real);
    if value > 0.0 && Max(mib, 1) < larger { DividesLess(value, Max(mib, 1) as real, larger as real); }
  }

  /** (value per MiB, last use, digest): the order sessions leave in. */
  type Rank = (real, int, Digest)

  predicate RankLess(a: Rank, b: Rank) {
    a.0 < b.0 || (a.0 == b.0 && (a.1 < b.1 || (a.1 == b.1 && TextLess(a.2, b.2))))
  }

  lemma RanksAreTotal()
    ensures StrictTotal(RankLess)
  {
    TextIsTotal();
  }

  /** What evictions may be chosen from: the rank and the footprint of each evictable session. */
  datatype Offer = Offer(rank: Rank, mib: nat)

  /** The memory some offered sessions give back, together. */
  function Sum(offers: map<Digest, Offer>, digests: seq<Digest>): nat
    requires forall d :: d in digests ==> d in offers
  {
    if digests == [] then 0
    else Sum(offers, digests[..|digests| - 1]) + offers[digests[|digests| - 1]].mib
  }

  predicate Cheaper(offers: map<Digest, Offer>, a: Digest, b: Digest) {
    a in offers && b in offers && RankLess(offers[a].rank, offers[b].rank)
  }

  ghost predicate CheapestFirst(chosen: seq<Digest>, offers: map<Digest, Offer>) {
    && (forall d :: d in chosen ==> d in offers)
    && (forall i, j :: 0 <= i < j < |chosen| ==> Cheaper(offers, chosen[i], chosen[j]))
    && (forall d, i :: d in offers && d !in chosen && 0 <= i < |chosen| ==> Cheaper(offers, chosen[i], d))
  }

  /** The shortest cheapest-first prefix of the offers that covers the need, or all of them. */
  ghost predicate CheapestCover(chosen: seq<Digest>, need: int, offers: map<Digest, Offer>) {
    && CheapestFirst(chosen, offers)
    && (Sum(offers, chosen) >= need || forall d :: d in offers ==> d in chosen)
    && (forall n :: 0 <= n < |chosen| ==> Sum(offers, chosen[..n]) < need)
  }

  /** Past a common prefix, the next entry of one list is no dearer than the next of the other. */
  lemma NextIsCheapest(a: seq<Digest>, b: seq<Digest>, n: nat, offers: map<Digest, Offer>)
    requires StrictTotal(RankLess) && CheapestFirst(a, offers) && CheapestFirst(b, offers)
    requires n < |a| && n < |b| && a[..n] == b[..n] && a[n] != b[n]
    ensures Cheaper(offers, a[n], b[n])
  {
    if b[n] in a {
      var i :| 0 <= i < |a| && a[i] == b[n];
      assert i < n ==> b[i] == a[..n][i];
      assert i < n ==> Cheaper(offers, b[i], b[n]);
    }
  }

  lemma {:induction false} CommonPrefix(a: seq<Digest>, b: seq<Digest>, n: nat, offers: map<Digest, Offer>)
    requires StrictTotal(RankLess) && CheapestFirst(a, offers) && CheapestFirst(b, offers)
    requires n <= |a| && n <= |b|
    ensures a[..n] == b[..n]
    decreases n
  {
    if n > 0 {
      CommonPrefix(a, b, n - 1, offers);
      if a[n - 1] != b[n - 1] {
        NextIsCheapest(a, b, n - 1, offers);
        NextIsCheapest(b, a, n - 1, offers);
      }
      assert a[..n] == a[..n - 1] + [a[n - 1]] && b[..n] == b[..n - 1] + [b[n - 1]];
    }
  }

  lemma NextIsNew(b: seq<Digest>, n: nat, offers: map<Digest, Offer>)
    requires StrictTotal(RankLess) && CheapestFirst(b, offers) && n < |b|
    ensures b[n] !in b[..n]
  {
    forall i | 0 <= i < n ensures b[i] != b[n] {
      assert Cheaper(offers, b[i], b[n]);
    }
  }

  lemma CoverEnds(a: seq<Digest>, b: seq<Digest>, need: int, offers: map<Digest, Offer>)
    requires StrictTotal(RankLess) && CheapestCover(a, need, offers) && CheapestCover(b, need, offers)
    requires |a| <= |b| && a == b[..|a|]
    ensures a == b
  {
    if |a| < |b| {
      NextIsNew(b, |a|, offers);
      assert false;
    }
  }

  /** The rules pin the eviction list down: two lists that obey them are the same list. */
  lemma CoverIsUnique(a: seq<Digest>, b: seq<Digest>, need: int, offers: map<Digest, Offer>)
    requires CheapestCover(a, need, offers) && CheapestCover(b, need, offers)
    ensures a == b
  {
    RanksAreTotal();
    if |a| <= |b| {
      CommonPrefix(a, b, |a|, offers);
      assert a[..|a|] == a;
      CoverEnds(a, b, need, offers);
    } else {
      CommonPrefix(a, b, |b|, offers);
      assert b[..|b|] == b;
      CoverEnds(b, a, need, offers);
    }
  }

  /** A prefix of all the offers in rank order that stops as soon as the need is met is the cover. */
  lemma PrefixCovers(chosen: seq<Digest>, ranked: seq<Rank>, need: int, offers: map<Digest, Offer>)
    requires StrictTotal(RankLess) && Sorted(RankLess, ranked) && |chosen| <= |ranked|
    requires forall k :: 0 <= k < |ranked| ==> ranked[k].2 in offers && offers[ranked[k].2].rank == ranked[k]
    requires forall d :: d in offers ==> exists k :: 0 <= k < |ranked| && ranked[k].2 == d
    requires forall i :: 0 <= i < |chosen| ==> chosen[i] == ranked[i].2
    requires Sum(offers, chosen) >= need || |chosen| == |ranked|
    requires forall n :: 0 <= n < |chosen| ==> Sum(offers, chosen[..n]) < need
    ensures CheapestCover(chosen, need, offers)
  {
    forall d, i | d in offers && d !in chosen && 0 <= i < |chosen| ensures Cheaper(offers, chosen[i], d) {
      var k :| 0 <= k < |ranked| && ranked[k].2 == d;
      assert forall m :: 0 <= m < |chosen| ==> ranked[m].2 in chosen;
      assert RankLess(ranked[i], ranked[k]);
    }
    forall d | d in offers && |chosen| == |ranked| ensures d in chosen {
      var k :| 0 <= k < |ranked| && ranked[k].2 == d;
      assert chosen[k] == d;
    }
  }

  lemma SumLonger(offers: map<Digest, Offer>, digests: seq<Digest>, k: nat)
    requires (forall d :: d in digests ==> d in offers) && |digests| <= k + 1
    ensures digests == [] ==> Sum(offers, digests) == 0
    ensures |digests| == k + 1 ==> Sum(offers, digests) == Sum(offers, digests[..k]) + offers[digests[k]].mib
  {
  }

  /** Rank the offers and take them cheapest first until the need is met. */
  method TakeCheapest(need: int, offers: map<Digest, Offer>) returns (chosen: seq<Digest>)
    requires forall d :: d in offers ==> offers[d].rank.2 == d
    ensures CheapestCover(chosen, need, offers)
  {
    hide Sum, CheapestCover, StrictTotal, Enumerates, RankLess, Sorted;
    RanksAreTotal();
    var ranks := set d | d in offers :: offers[d].rank;
    var ranked := OrderBy(RankLess, ranks);
    RankedOffers(ranked, ranks, offers);
    SumLonger(offers, [], 0);
    chosen := [];
    var freed := 0;
    var k := 0;
    while k < |ranked| && freed < need
      invariant k <= |ranked| && |chosen| == k
      invariant forall i :: 0 <= i < k ==> chosen[i] == ranked[i].2
      invariant freed == Sum(offers, chosen)
      invariant forall n :: 0 <= n < k ==> Sum(offers, chosen[..n]) < need
    {
      var longer := chosen + [ranked[k].2];
      assert longer[..k] == chosen && forall n :: 0 <= n < k ==> longer[..n] == chosen[..n];
      SumLonger(offers, longer, k);
      chosen, freed, k := longer, freed + offers[ranked[k].2].mib, k + 1;
    }
    PrefixCovers(chosen, ranked, need, offers);
  }

  lemma RankedOffers(ranked: seq<Rank>, ranks: set<Rank>, offers: map<Digest, Offer>)
    requires Enumerates(RankLess, ranked, ranks) && ranks == set d | d in offers :: offers[d].rank
    requires forall d :: d in offers ==> offers[d].rank.2 == d
    ensures forall k :: 0 <= k < |ranked| ==> ranked[k].2 in offers && offers[ranked[k].2].rank == ranked[k]
    ensures forall d :: d in offers ==> exists k :: 0 <= k < |ranked| && ranked[k].2 == d
  {
    forall k | 0 <= k < |ranked| ensures ranked[k].2 in offers && offers[ranked[k].2].rank == ranked[k] {
      assert ranked[k] in ranks;
    }
    forall d | d in offers ensures exists k :: 0 <= k < |ranked| && ranked[k].2 == d {
      assert offers[d].rank in ranked;
    }
  }

  class Policy {
    const cfg: Settings
    var measured: map<Digest, int>
    var loadMs: map<Digest, real>
    var pressure: map<Digest, nat>

    constructor (cfg: Settings)
      ensures this.cfg == cfg && Valid()
    {
      this.cfg := cfg;
      measured, loadMs, pressure := map[], map[], map[];
    }

    ghost predicate Valid()
      reads this
    {
      forall d :: d in measured ==> measured[d] >= 0
    }

    /** Remember what a load cost; the measured peak only ever grows. */
    method RecordLoad(digest: Digest, peak: int, ms: real)
      requires Valid()
      modifies this
      ensures Valid()
      ensures measured == if peak != 0 then old(measured)[digest := Max(peak, Get(old(measured), digest, 0))] else old(measured)
      ensures loadMs == if ms != 0.0 then old(loadMs)[digest := ms] else old(loadMs)
      ensures pressure == old(pressure)
    {
      if peak != 0 { measured := measured[digest := Max(peak, Get(measured, digest, 0))]; }
      if ms != 0.0 { loadMs := loadMs[digest := ms]; }
    }

    method RecordMemoryPressure(digest: Digest)
      requires Valid()
      modifies this`pressure
      ensures Valid() && pressure == old(pressure)[digest := Get(old(pressure), digest, 0) + 1]
    {
      pressure := pressure[digest := Get(pressure, digest, 0) + 1];
    }

    method Forget(digest: Digest)
      requires Valid()
      modifies this
      ensures Valid()
      ensures measured == old(measured) - {digest} && loadMs == old(loadMs) - {digest} && pressure == old(pressure) - {digest}
    {
      measured, loadMs, pressure := measured - {digest}, loadMs - {digest}, pressure - {digest};
    }

    function RequiredMib(digest: Digest, estimate: int): (mib: int)
      reads this
      requires Valid()
      ensures cfg.activationPeak >= 1.0 && cfg.pressureGrowth >= 1.0 ==> mib >= estimate
    {
      var m := Get(measured, digest, 0);
      if cfg.activationPeak >= 1.0 && cfg.pressureGrowth >= 1.0 then
        RequiredCoversEstimate(cfg, estimate, m, Get(pressure, digest, 0));
        Required(cfg, estimate, m, Get(pressure, digest, 0))
      else Required(cfg, estimate, m, Get(pressure, digest, 0))
    }

    function Admit(digest: Digest, estimate: int, free: int, total: int, resident: int, context: int): Admission
      reads this
      requires Valid()
    {
      AdmitMib(cfg, RequiredMib(digest, estimate), free, total, resident, context)
    }

    function Density(digest: Digest, s: Stats, now: int): real
      reads this
    {
      PerMib(Value(cfg, s, ReloadMs(digest, s), now), s.Footprint())
    }

    /** The load time on record, or else the one measured before. */
    function ReloadMs(digest: Digest, s: Stats): real
      reads this
    {
      if s.loadMs != 0.0 then s.loadMs else Get(loadMs, digest, 0.0)
    }

    /** Which of two sessions is priced lower: of two that take the same, the one worth less; of two worth
        the same, and something, the one that takes more. */
    lemma PricedLower(digest: Digest, s: Stats, other: Digest, t: Stats, now: int)
      ensures s.Footprint() == t.Footprint() ==>
        (Density(digest, s, now) < Density(other, t, now)
         <==> Value(cfg, s, ReloadMs(digest, s), now) < Value(cfg, t, ReloadMs(other, t), now))
      ensures Max(t.Footprint(), 1) < s.Footprint()
        && Value(cfg, s, ReloadMs(digest, s), now) == Value(cfg, t, ReloadMs(other, t), now) > 0.0
        ==> Density(digest, s, now) < Density(other, t, now)
    {
      hide Value, PerMib;
      var v, w := Value(cfg, s, ReloadMs(digest, s), now), Value(cfg, t, ReloadMs(other, t), now);
      DensityOrders(v, w, s.Footprint(), s.Footprint());
      DensityOrders(v, w, t.Footprint(), s.Footprint());
    }

    function RankOf(digest: Digest, s: Stats, now: int): Rank
      reads this
    {
      (Density(digest, s, now), s.lastUsed, digest)
    }

    /** Neither leased nor inside its minimum residency. */
    predicate Evictable(digest: Digest, s: Stats, leased: set<Digest>, now: int)
      reads this
    {
      && !s.leased && digest !in leased
      && (cfg.minResidencySecs > 0.0 ==> (now - s.loadedAt) as real / 1000.0 >= cfg.minResidencySecs)
    }

    /** The evictable sessions, priced. */
    function Offers(resident: map<Digest, Stats>, leased: set<Digest>, now: int): (offers: map<Digest, Offer>)
      reads this
      ensures forall d :: d in offers <==> d in resident && Evictable(d, resident[d], leased, now)
      ensures forall d :: d in offers ==> offers[d].rank.2 == d && offers[d].mib == resident[d].Footprint()
    {
      map d | d in resident && Evictable(d, resident[d], leased, now)
        :: Offer(RankOf(d, resident[d], now), resident[d].Footprint())
    }

    method Victims(need: int, resident: map<Digest, Stats>, leased: set<Digest>, now: int) returns (chosen: seq<Digest>)
      ensures CheapestCover(chosen, need, Offers(resident, leased, now))
      ensures forall d :: d in chosen ==> d in resident && !resident[d].leased && d !in leased
      ensures forall d :: d in chosen ==> cfg.minResidencySecs > 0.0 ==> (now - resident[d].loadedAt) as real >= cfg.minResidencySecs * 1000.0
    {
      chosen := [];
      if need > 0 {
        chosen := TakeCheapest(need, Offers(resident, leased, now));
      }
    }
  }
}
