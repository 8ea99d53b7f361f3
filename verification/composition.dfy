/**
 Lesson composition: how many of a day's new items come from the current
 stage, from earlier ("previous" or "recent") stages, and from weak
 templates. The counts depend on how far the learner is into the stage,
 are boosted by gate failures, and are trimmed to the daily budget.
 */
module Composition {
  import opened Common
  import opened Curriculum

  datatype Bucket = Current | Previous | Recent | Weakness

  /** A count per bucket; `None` where the table has no entry for the bucket. */
  datatype Counts = Counts(current: Option<int>, previous: Option<int>, recent: Option<int>, weakness: Option<int>)
  {
    function Get(b: Bucket): Option<int>
    {
      match b
      case Current => current
      case Previous => previous
      case Recent => recent
      case Weakness => weakness
    }

    predicate Has(b: Bucket) { Get(b).Some? }

    function Val(b: Bucket): int { Get(b).GetOr(0) }

    function Set(b: Bucket, v: int): (r: Counts)
      ensures r.Get(b) == Some(v)
      ensures forall c :: c != b ==> r.Get(c) == Get(c)
    {
      match b
      case Current => this.(current := Some(v))
      case Previous => this.(previous := Some(v))
      case Recent => this.(recent := Some(v))
      case Weakness => this.(weakness := Some(v))
    }

    function Total(): int
    {
      Val(Current) + Val(Previous) + Val(Recent) + Val(Weakness)
    }
  }

  const NoCounts: Counts := Counts(None, None, None, None)

  predicate SameKeys(a: Counts, b: Counts)
  {
    forall k: Bucket :: a.Has(k) <==> b.Has(k)
  }

  predicate NonNegative(m: Counts)
  {
    forall b: Bucket :: m.Val(b) >= 0
  }

  function ClampOpt(x: Option<int>): Option<int>
  {
    if x.Some? then Some(Max(0, x.value)) else None
  }

  /** Every count raised to at least 0. */
  function ClampBelow(m: Counts): (r: Counts)
    ensures SameKeys(r, m) && NonNegative(r)
    ensures forall b: Bucket :: r.Val(b) == Max(0, m.Val(b))
  {
    Counts(ClampOpt(m.current), ClampOpt(m.previous), ClampOpt(m.recent), ClampOpt(m.weakness))
  }

  /** The trimming floor of a bucket: its `minByKey` entry, at least 0. */
  function Floor(minByKey: Counts, b: Bucket): nat
  {
    Max(0, minByKey.Val(b))
  }

  /** The part of the counts their floors protect. */
  function Protected(m: Counts, minByKey: Counts): int
  {
    Min(m.Val(Current), Floor(minByKey, Current)) + Min(m.Val(Previous), Floor(minByKey, Previous))
    + Min(m.Val(Recent), Floor(minByKey, Recent)) + Min(m.Val(Weakness), Floor(minByKey, Weakness))
  }

  /** The floors protect no more than they add up to. */
  lemma FloorsProtect(m: Counts, minByKey: Counts)
    ensures Protected(m, minByKey)
      <= Floor(minByKey, Current) + Floor(minByKey, Previous) + Floor(minByKey, Recent) + Floor(minByKey, Weakness)
  {
  }

  /** On a narrow guided stage past its second day, the window keeps Recent (or else Previous) at its floor. */
  lemma NarrowFloorHolds(guided: bool, narrow: bool, days: int, requested: Counts, daily: int)
    requires daily >= 1
    ensures guided && narrow && days > 2 ==>
      var k := if requested.Has(Recent) then Recent else Previous;
      ClampCounts(requested, daily, MinByKey(guided, narrow, days, requested, daily)).Val(k)
        >= Min(Max(0, requested.Val(k)), (daily + 1) / 2)
  {
    FloorsProtect(ClampBelow(requested), MinByKey(guided, narrow, days, requested, daily));
  }

  /** The order of the first trimming pass, which respects the floors. */
  const TrimOrder: seq<Bucket> := [Previous, Recent, Weakness, Current]

  /** The order of the second pass, run only when the first could not trim anything. */
  const DrainOrder: seq<Bucket> := [Weakness, Current, Previous, Recent]

  /** Some bucket of `order` is above its floor. */
  predicate AnyAbove(m: Counts, order: seq<Bucket>, minByKey: Counts)
    decreases |order|
  {
    |order| > 0 && (m.Val(order[0]) > Floor(minByKey, order[0]) || AnyAbove(m, order[1..], minByKey))
  }

  /**
   One pass of the trimming loop over `order`: while the total exceeds
   `daily`, each bucket above its floor loses one.
   */
  function TrimPass(m: Counts, daily: int, order: seq<Bucket>, minByKey: Counts): (r: (Counts, bool))
    requires NonNegative(m)
    ensures NonNegative(r.0) && SameKeys(r.0, m)
    ensures forall b: Bucket :: Min(m.Val(b), Floor(minByKey, b)) <= r.0.Val(b) <= m.Val(b)
    ensures r.1 <==> r.0.Total() < m.Total()
    ensures !r.1 ==> r.0 == m
    ensures m.Total() > daily ==> r.0.Total() >= daily
    ensures m.Total() <= daily ==> r.0 == m
    ensures m.Total() > daily && AnyAbove(m, order, minByKey) ==> r.1
    decreases |order|
  {
    if |order| == 0 || m.Total() <= daily then (m, false)
    else
      var b := order[0];
      if m.Val(b) > Floor(minByKey, b) then
        (TrimPass(m.Set(b, m.Val(b) - 1), daily, order[1..], minByKey).0, true)
      else TrimPass(m, daily, order[1..], minByKey)
  }

  predicate AllSpent(m: Counts)
  {
    forall b: Bucket :: m.Val(b) <= 0
  }

  /**
   When the first pass trims nothing, every bucket sits at or below its
   floor, so the floors protect the whole total; and the second pass then
   trims something unless every bucket is empty.
   */
  lemma StuckPass(m: Counts, daily: int, minByKey: Counts)
    requires NonNegative(m) && m.Total() > daily
    ensures !TrimPass(m, daily, TrimOrder, minByKey).1 ==> Protected(m, minByKey) == m.Total()
    ensures !TrimPass(m, daily, TrimOrder, minByKey).1 && !AllSpent(m) ==> TrimPass(m, daily, DrainOrder, NoCounts).1
  {
    if !TrimPass(m, daily, TrimOrder, minByKey).1 {
      assert !AnyAbove(m, TrimOrder, minByKey);
      assert TrimOrder[1..] == [Recent, Weakness, Current];
      assert TrimOrder[1..][1..] == [Weakness, Current];
      assert TrimOrder[1..][1..][1..] == [Current];
      if !AllSpent(m) {
        assert DrainOrder[1..] == [Current, Previous, Recent];
        assert DrainOrder[1..][1..] == [Previous, Recent];
        assert DrainOrder[1..][1..][1..] == [Recent];
        assert AnyAbove(m, DrainOrder, NoCounts);
      }
    }
  }

  /**
   One round of the `while (total > dailyCount)` loop: the floor-respecting
   pass, then the draining pass if the first trimmed nothing.
   */
  function TrimRound(m: Counts, daily: int, minByKey: Counts): (r: Counts)
    requires NonNegative(m) && m.Total() > daily
    ensures NonNegative(r) && SameKeys(r, m)
    ensures forall b: Bucket :: r.Val(b) <= m.Val(b)
    ensures r.Total() >= daily
    ensures r.Total() < m.Total() || (r == m && AllSpent(m))
    ensures Protected(m, minByKey) <= daily ==> forall b: Bucket :: r.Val(b) >= Min(m.Val(b), Floor(minByKey, b))
  {
    var (m1, reduced) := TrimPass(m, daily, TrimOrder, minByKey);
    StuckPass(m, daily, minByKey);
    if reduced then m1 else TrimPass(m1, daily, DrainOrder, NoCounts).0
  }

  /** The `while (total > dailyCount)` loop of `clampCounts`. */
  function TrimLoop(m: Counts, daily: int, minByKey: Counts): (r: Counts)
    requires NonNegative(m)
    ensures NonNegative(r) && SameKeys(r, m)
    ensures forall b: Bucket :: r.Val(b) <= m.Val(b)
    ensures r.Total() == if m.Total() <= daily then m.Total() else Max(daily, 0)
    ensures m.Total() <= daily ==> r == m
    decreases m.Total()
  {
    if m.Total() <= daily then m
    else
      var m2 := TrimRound(m, daily, minByKey);
      if m2.Total() > daily && AllSpent(m2) then m2
      else TrimLoop(m2, daily, minByKey)
  }

  /** While the floors fit in the budget, the loop never takes a bucket below its floor. */
  lemma {:induction false} TrimLoopKeepsFloors(m: Counts, daily: int, minByKey: Counts)
    requires NonNegative(m)
    ensures Protected(m, minByKey) <= daily ==>
      forall b: Bucket :: TrimLoop(m, daily, minByKey).Val(b) >= Min(m.Val(b), Floor(minByKey, b))
    decreases m.Total()
  {
    if m.Total() > daily && Protected(m, minByKey) <= daily {
      var m2 := TrimRound(m, daily, minByKey);
      assert forall b: Bucket :: Min(m2.Val(b), Floor(minByKey, b)) == Min(m.Val(b), Floor(minByKey, b));
      if !(m2.Total() > daily && AllSpent(m2)) {
        TrimLoopKeepsFloors(m2, daily, minByKey);
      }
    }
  }

  /**
   `clampCounts`: the counts, raised to at least 0, trimmed one at a time
   until they fit in `daily`. The first pass spares every bucket at its
   `minByKey` floor; the floors give way only when nothing else is left.
   */
  function ClampCounts(counts: Counts, daily: int, minByKey: Counts): (r: Counts)
    ensures SameKeys(r, counts)
    ensures forall b: Bucket :: 0 <= r.Val(b) <= Max(0, counts.Val(b))
    ensures r.Total() == if ClampBelow(counts).Total() <= daily then ClampBelow(counts).Total() else Max(daily, 0)
    ensures ClampBelow(counts).Total() <= daily ==> r == ClampBelow(counts)
    ensures Protected(ClampBelow(counts), minByKey) <= daily ==>
      forall b: Bucket :: r.Val(b) >= Min(Max(0, counts.Val(b)), Floor(minByKey, b))
  {
    TrimLoopKeepsFloors(ClampBelow(counts), daily, minByKey);
    TrimLoop(ClampBelow(counts), daily, minByKey)
  }

  /** Clamping counts that already fit changes nothing, whatever the floors. */
  lemma ClampIdempotent(counts: Counts, daily: int, minByKey: Counts, minByKey2: Counts)
    requires daily >= 0
    ensures ClampCounts(ClampCounts(counts, daily, minByKey), daily, minByKey2) == ClampCounts(counts, daily, minByKey)
  {
    var r := ClampCounts(counts, daily, minByKey);
    ClampBelowFixes(r);
    assert r.Total() <= daily;
  }

  /** Counts that are already non-negative are their own clamp. */
  lemma ClampBelowFixes(m: Counts)
    requires NonNegative(m)
    ensures ClampBelow(m) == m
  {
    assert m.Val(Current) >= 0 && m.Val(Previous) >= 0 && m.Val(Recent) >= 0 && m.Val(Weakness) >= 0;
  }

  // ---------------------------------------------------------------------
  // Gate boost

  /** Extra weight per verb class. */
  datatype ClassBias = ClassBias(godan: int, ichidan: int, irregular: int)

  datatype Boost = Boost(weaknessExtra: nat, classBias: ClassBias)

  predicate BoostsWeakness(r: Reason)
  {
    r == MinAccuracyReason || r == ClassAccuracy("godan") || r == ClassAccuracy("ichidan") || r == ClassAccuracy("irregular")
  }

  function Occurrences(reasons: seq<Reason>, r: Reason): nat
  {
    multiset(reasons)[r]
  }

  lemma OccurrencesCons(reasons: seq<Reason>, r: Reason)
    requires |reasons| > 0
    ensures Occurrences(reasons, r) == (if reasons[0] == r then 1 else 0) + Occurrences(reasons[1..], r)
  {
    assert reasons == [reasons[0]] + reasons[1..];
  }

  /**
   `deriveGateBoost`: one extra weakness item per failed accuracy check,
   and two points of bias toward each class whose accuracy check failed.
   */
  function DeriveGateBoost(reasons: seq<Reason>): (r: Boost)
    ensures r.weaknessExtra == |Filter(reasons, BoostsWeakness)|
    ensures r.classBias == ClassBias(
      2 * Occurrences(reasons, ClassAccuracy("godan")),
      2 * Occurrences(reasons, ClassAccuracy("ichidan")),
      2 * Occurrences(reasons, ClassAccuracy("irregular")))
    decreases |reasons|
  {
    if |reasons| == 0 then Boost(0, ClassBias(0, 0, 0))
    else
      var rest := DeriveGateBoost(reasons[1..]);
      var x := reasons[0];
      OccurrencesCons(reasons, ClassAccuracy("godan"));
      OccurrencesCons(reasons, ClassAccuracy("ichidan"));
      OccurrencesCons(reasons, ClassAccuracy("irregular"));
      var b := rest.classBias;
      var bias := ClassBias(
        b.godan + (if x == ClassAccuracy("godan") then 2 else 0),
        b.ichidan + (if x == ClassAccuracy("ichidan") then 2 else 0),
        b.irregular + (if x == ClassAccuracy("irregular") then 2 else 0));
      Boost(rest.weaknessExtra + (if BoostsWeakness(x) then 1 else 0), bias)
  }

  // ---------------------------------------------------------------------
  // The composition window

  /** The path's window settings; an absent count table falls back to the built-in one. */
  datatype Windows = Windows(
    midCourseUnlockedForms: Option<int>,
    introDays: Option<int>,
    consolidationDays: Option<int>,
    countsMidCourse: Option<Counts>,
    countsIntro: Option<Counts>,
    countsConsolidation: Option<Counts>,
    countsMaintenance: Option<Counts>)

  datatype Tier = MidCourse | Intro | Consolidation | Maintenance

  /** `Number.MAX_SAFE_INTEGER`, the mid-course threshold when none is set. */
  const MaxSafeInteger: int := 9_007_199_254_740_991

  /** The daily budget: `Math.max(1, dailyCount || 10)`. */
  function DailyBudget(dailyCount: Option<int>): (n: int)
    ensures n >= 1
    ensures dailyCount.None? || dailyCount.value == 0 ==> n == 10
  {
    Max(1, OrElse(dailyCount, 10))
  }

  /**
   Which count table applies: the mid-course table on a guided path with
   enough stages unlocked, else by days in the stage, intro up to
   `intro_days` (2), consolidation up to `consolidation_days` (6), then
   maintenance.
   */
  function TierFor(guided: bool, w: Windows, unlockedStageCount: int, daysInStage: int): (t: Tier)
    ensures t == MidCourse <==> guided && unlockedStageCount >= OrElse(w.midCourseUnlockedForms, MaxSafeInteger)
    ensures t == Intro <==> t != MidCourse && daysInStage <= OrElse(w.introDays, 2)
    ensures t == Consolidation <==>
      t != MidCourse && daysInStage > OrElse(w.introDays, 2) && daysInStage <= OrElse(w.consolidationDays, 6)
    ensures !guided && daysInStage > Max(OrElse(w.introDays, 2), OrElse(w.consolidationDays, 6)) ==> t == Maintenance
  {
    if guided && unlockedStageCount >= OrElse(w.midCourseUnlockedForms, MaxSafeInteger) then MidCourse
    else if daysInStage <= OrElse(w.introDays, 2) then Intro
    else if daysInStage <= OrElse(w.consolidationDays, 6) then Consolidation
    else Maintenance
  }

  function TierCounts(tier: Tier, w: Windows): Counts
  {
    match tier
    case MidCourse => w.countsMidCourse.GetOr(Counts(Some(2), None, Some(5), Some(3)))
    case Intro => w.countsIntro.GetOr(Counts(Some(6), Some(3), None, Some(1)))
    case Consolidation => w.countsConsolidation.GetOr(Counts(Some(4), Some(4), None, Some(2)))
    case Maintenance => w.countsMaintenance.GetOr(Counts(Some(3), Some(5), None, Some(2)))
  }

  predicate StabilizationActive(state: PathState, now: Time)
  {
    state.stabilizationUntil.Some? && now < state.stabilizationUntil.value
  }

  /** The weakness count after the failed-gate, gate-reason and stabilisation boosts. */
  function BoostedWeakness(base: Counts, state: PathState, boost: Boost, now: Time): (n: int)
    ensures n >= base.Val(Weakness)
  {
    base.Val(Weakness) + (if state.failedGateCount > 0 then 1 else 0) + boost.weaknessExtra
      + (if StabilizationActive(state, now) then 2 else 0)
  }

  /**
   The floor a guided path puts on earlier-stage items once a stage that
   teaches a single template is past its second day: half the budget,
   rounded up, on "recent" when the table has it, else on "previous".
   */
  function MinByKey(guided: bool, narrow: bool, daysInStage: int, counts: Counts, daily: int): (r: Counts)
    ensures r != NoCounts <==> guided && narrow && daysInStage > 2
    ensures forall b: Bucket :: r.Has(b) ==> r.Val(b) == (daily + 1) / 2
    ensures r.Has(Recent) ==> counts.Has(Recent)
    ensures r.Has(Previous) ==> !counts.Has(Recent) && !r.Has(Recent)
    ensures !r.Has(Current) && !r.Has(Weakness)
    ensures daily >= 1 ==> Floor(r, Current) + Floor(r, Previous) + Floor(r, Recent) + Floor(r, Weakness) <= daily
  {
    if guided && narrow && daysInStage > 2 then
      NoCounts.Set(if counts.Has(Recent) then Recent else Previous, (daily + 1) / 2)
    else NoCounts
  }

  datatype Composition = Composition(
    daily: int,
    daysInStage: nat,
    unlockedStageCount: int,
    stageIsNarrow: bool,
    stabilizationActive: bool,
    tier: Tier,
    boost: Boost,
    requested: Counts,
    counts: Counts)

  /**
   `computeCompositionWindow`: the bucket counts for today's lesson,
   for a normalised path state.
   */
  function CompositionWindow(
    guided: bool, w: Windows, state: PathState, dailyCount: Option<int>, now: Time,
    currentStage: Option<PathStage>, reasons: seq<Reason>): (r: Composition)
    ensures r.daily == DailyBudget(dailyCount)
    ensures r.daysInStage == DaysInStage(state.stageStartedAt, now)
    ensures r.unlockedStageCount == state.stageIndex + 1
    ensures r.stageIsNarrow <==> currentStage.None? || |currentStage.value.templateIds| <= 1
    ensures r.tier == TierFor(guided, w, r.unlockedStageCount, r.daysInStage)
    ensures r.boost == DeriveGateBoost(reasons)
    ensures r.requested == TierCounts(r.tier, w).Set(Weakness, BoostedWeakness(TierCounts(r.tier, w), state, r.boost, now))
    ensures SameKeys(r.counts, r.requested)
    ensures forall b: Bucket :: 0 <= r.counts.Val(b) <= Max(0, r.requested.Val(b))
    ensures r.counts.Total() <= r.daily
    ensures ClampBelow(r.requested).Total() <= r.daily ==> r.counts == ClampBelow(r.requested)
  {
    var daily := DailyBudget(dailyCount);
    var days := DaysInStage(state.stageStartedAt, now);
    var unlocked := state.stageIndex + 1;
    var narrow := currentStage.None? || |currentStage.value.templateIds| <= 1;
    var tier := TierFor(guided, w, unlocked, days);
    var base := TierCounts(tier, w);
    var boost := DeriveGateBoost(reasons);
    var requested := base.Set(Weakness, BoostedWeakness(base, state, boost, now));
    var floors := MinByKey(guided, narrow, days, requested, daily);
    Composition(daily, days, unlocked, narrow, StabilizationActive(state, now), tier, boost, requested,
                ClampCounts(requested, daily, floors))
  }

  /**
   On a guided path whose stage has at most one template and has lasted more than two days,
   the window keeps Recent (or Previous, when the tier has no Recent count) at no less than
   half the daily budget, rounded up, unless fewer were requested.
  */
  lemma CompositionFloor(
    guided: bool, w: Windows, state: PathState, dailyCount: Option<int>, now: Time,
    currentStage: Option<PathStage>, reasons: seq<Reason>)
    ensures var r := CompositionWindow(guided, w, state, dailyCount, now, currentStage, reasons);
      guided && r.stageIsNarrow && r.daysInStage > 2 ==>
        var k := if r.requested.Has(Recent) then Recent else Previous;
        r.counts.Val(k) >= Min(Max(0, r.requested.Val(k)), (r.daily + 1) / 2)
  {
    var r := CompositionWindow(guided, w, state, dailyCount, now, currentStage, reasons);
    NarrowFloorHolds(guided, r.stageIsNarrow, r.daysInStage, r.requested, r.daily);
  }
}
