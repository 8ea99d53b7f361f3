/**
 Building a lesson queue: the template lists of the current stage (with
 intro templates that defer the rest until a sub-phase unlock day), the
 four bucket pools, the picks for each bucket, a fallback fill, and the
 irregular-verb policy.
 */
module Lesson {
  import opened Common
  import opened Random
  import opened Scheduler
  import opened Curriculum
  import opened CurriculumLaws
  import opened Composition
  import opened Weakness
  import opened Picking
  import opened Irregular

  /** A `stage_overrides` entry: the templates taught first, and the stage day the rest unlock on. */
  datatype StageOverride = StageOverride(introTemplateIds: Option<seq<string>>, subphaseUnlockDay: Option<int>)

  /** The parts of a path configuration a lesson is built from. */
  datatype LessonConfig = LessonConfig(
    stages: seq<PathStage>,
    stageOverrides: map<string, StageOverride>,
    windows: Windows,
    confusablePairs: seq<seq<string>>,
    confusionTriggerErrors: Option<int>,
    irregularPolicy: Option<IrregularPolicy>)

  /** The stage's template ids, none when there is no stage. */
  function StageTemplates(stage: Option<PathStage>): seq<string>
  {
    if stage.Some? then stage.value.templateIds else []
  }

  /** `Math.max(1, Math.floor(asNumber(subphase_unlock_day, 0)))` */
  function UnlockDay(o: StageOverride): int
  {
    Max(1, o.subphaseUnlockDay.GetOr(0))
  }

  /** The intro templates that belong to the stage. */
  function IntroTemplates(o: StageOverride, ids: seq<string>): (r: seq<string>)
    ensures forall t :: t in r <==> o.introTemplateIds.Some? && t in o.introTemplateIds.value && t in ids
  {
    if o.introTemplateIds.Some? then Filter(o.introTemplateIds.value, (t: string) => t in ids) else []
  }

  /** The override for the stage, if the configuration has one. */
  function OverrideFor(overrides: map<string, StageOverride>, stage: Option<PathStage>): Option<StageOverride>
  {
    if stage.Some? && stage.value.id in overrides then Some(overrides[stage.value.id]) else None
  }

  /**
   `getStageCurrentTemplateIds`: the stage's templates, or only its intro
   templates before the sub-phase unlock day.
   */
  function StageCurrentTemplateIds(overrides: map<string, StageOverride>, stage: Option<PathStage>, days: int)
    : (r: seq<string>)
    ensures forall t :: t in r ==> t in StageTemplates(stage)
    ensures OverrideFor(overrides, stage).None? ==> r == StageTemplates(stage)
    ensures OverrideFor(overrides, stage).Some? && days >= UnlockDay(OverrideFor(overrides, stage).value) ==>
      r == StageTemplates(stage)
    ensures r != StageTemplates(stage) <==>
      (OverrideFor(overrides, stage).Some?
       && |IntroTemplates(OverrideFor(overrides, stage).value, StageTemplates(stage))| > 0
       && 1 < UnlockDay(OverrideFor(overrides, stage).value) && days < UnlockDay(OverrideFor(overrides, stage).value)
       && IntroTemplates(OverrideFor(overrides, stage).value, StageTemplates(stage)) != StageTemplates(stage))
  {
    var ids := StageTemplates(stage);
    match OverrideFor(overrides, stage)
    case None => ids
    case Some(o) =>
      var intro := IntroTemplates(o, ids);
      if |intro| > 0 && UnlockDay(o) > 1 && days < UnlockDay(o) then intro else ids
  }

  // ---------------------------------------------------------------------
  // Template lists

  /** The template lists a lesson draws on. */
  datatype TemplateLists = TemplateLists(
    stage: Option<PathStage>,
    current: seq<string>,
    active: seq<string>,
    deferred: seq<string>,
    unlocked: seq<string>,
    effective: seq<string>,
    previous: seq<string>,
    recent: seq<string>)

  /** How many stages back the recent list reaches. */
  const RecentStageWindow: int := 5

  /**
   The lists for a normalised state: the current stage's templates, the
   active part of them, the deferred rest, the unlocked templates without
   the deferred ones, the previously unlocked ones, and the recent ones
   without the deferred ones.
   */
  function Lists(config: LessonConfig, state: PathState, now: Time): (r: TemplateLists)
    ensures r.stage == CurrentStage(config.stages, state)
    ensures r.unlocked == UnlockedTemplateIds(config.stages, state)
    ensures forall t :: t in r.active ==> t in r.current
    ensures forall t :: t in r.deferred <==> t in r.current && t !in r.active
    ensures forall t :: t in r.effective <==> t in r.unlocked && t !in r.deferred
    ensures forall t :: t in r.previous <==> t in r.effective && t !in r.active
    ensures forall t :: t in r.active ==> t in r.effective
    ensures forall t :: t in r.recent <==> t in RecentTemplateIds(config.stages, state, RecentStageWindow) && t !in r.deferred
    ensures forall t :: t in r.recent ==> t in r.effective
  {
    var stage := CurrentStage(config.stages, state);
    var current := StageTemplates(stage);
    var active := StageCurrentTemplateIds(config.stageOverrides, stage, DaysInStage(state.stageStartedAt, now));
    var unlocked := UnlockedTemplateIds(config.stages, state);
    var deferred := Filter(current, (t: string) => t !in active);
    var effective := Filter(unlocked, (t: string) => t !in deferred);
    var previous := Filter(effective, (t: string) => t !in active);
    var recent := Filter(RecentTemplateIds(config.stages, state, RecentStageWindow), (t: string) => t !in deferred);
    StageTemplatesUnlocked(config.stages, state);
    RecentWithinUnlocked(config.stages, state, RecentStageWindow);
    TemplateLists(stage, current, active, deferred, unlocked, effective, previous, recent)
  }

  /** The current stage's templates are unlocked, including when there is no stage. */
  lemma StageTemplatesUnlocked(stages: seq<PathStage>, state: PathState)
    ensures forall t :: t in StageTemplates(CurrentStage(stages, state)) ==> t in UnlockedTemplateIds(stages, state)
  {
    if CurrentStage(stages, state).Some? {
      CurrentStageUnlocked(stages, state, RecentStageWindow);
    }
  }

  /**
   The recent list as the source builds it: every template of the last
   five stages, the deferred ones of the current stage included.
   */
  function RecentAsWritten(config: LessonConfig, state: PathState): (r: seq<string>)
    ensures forall t :: t in r ==> t in UnlockedTemplateIds(config.stages, state)
  {
    RecentWithinUnlocked(config.stages, state, RecentStageWindow);
    RecentTemplateIds(config.stages, state, RecentStageWindow)
  }

  /** The list the previous/recent bucket draws on: the recent one in the mid-course tier of a guided path. */
  function PreviousSource(guided: bool, config: LessonConfig, lists: TemplateLists, unlockedStageCount: int): (r: seq<string>)
    requires forall t :: t in lists.recent ==> t in lists.effective
    requires forall t :: t in lists.previous ==> t in lists.effective
    ensures forall t :: t in r ==> t in lists.effective
    ensures guided && unlockedStageCount >= OrElse(config.windows.midCourseUnlockedForms, MaxSafeInteger) ==>
      r == lists.recent
    ensures !(guided && unlockedStageCount >= OrElse(config.windows.midCourseUnlockedForms, MaxSafeInteger)) ==>
      r == lists.previous
  {
    if guided && unlockedStageCount >= OrElse(config.windows.midCourseUnlockedForms, MaxSafeInteger) then lists.recent
    else lists.previous
  }

  // ---------------------------------------------------------------------
  // Pools

  /** The unseen pairs of the listed templates, tagged with a bucket. */
  function PoolOf(unseen: seq<Pair>, ids: seq<string>, source: Source): (r: seq<Item>)
    ensures forall x :: x in r <==> x.pair in unseen && x.pair.templateId in ids && x.source == source
  {
    Tag(Filter(unseen, (p: Pair) => p.templateId in ids), source)
  }

  datatype Pools = Pools(current: seq<Item>, previous: seq<Item>, weakness: seq<Item>, fallback: seq<Item>)
  {
    function All(): seq<Item> { current + previous + weakness + fallback }
  }

  /** The bucket items in a lesson may come from: every one unseen, of an effective template, and labelled honestly. */
  ghost predicate Honest(x: Item, unseen: seq<Pair>, lists: TemplateLists, weaknessIds: seq<string>)
  {
    && x.pair in unseen
    && x.pair.templateId in lists.effective
    && (x.source == FromCurrent ==> x.pair.templateId in lists.active)
    && (x.source == FromWeakness ==> x.pair.templateId in weaknessIds)
  }

  /** The four pools of `buildLessonQueue`. */
  function BuildPools(unseen: seq<Pair>, lists: TemplateLists, previousSource: seq<string>, previousTag: Source,
                      weaknessIds: seq<string>): (r: Pools)
    requires forall t :: t in previousSource ==> t in lists.effective
    requires forall t :: t in lists.active ==> t in lists.effective
    requires forall t :: t in weaknessIds ==> t in lists.effective
    requires previousTag == FromPrevious || previousTag == FromRecent
    ensures forall x :: x in r.All() ==> Honest(x, unseen, lists, weaknessIds)
    ensures forall x :: x in r.current <==> x.pair in unseen && x.pair.templateId in lists.active && x.source == FromCurrent
    ensures forall x :: x in r.previous <==> x.pair in unseen && x.pair.templateId in previousSource && x.source == previousTag
    ensures forall x :: x in r.weakness <==> x.pair in unseen && x.pair.templateId in weaknessIds && x.source == FromWeakness
    ensures forall x :: x in r.fallback <==> x.pair in unseen && x.pair.templateId in lists.effective && x.source == FromFallback
  {
    Pools(
      PoolOf(unseen, lists.active, FromCurrent),
      PoolOf(unseen, previousSource, previousTag),
      PoolOf(unseen, weaknessIds, FromWeakness),
      PoolOf(unseen, lists.effective, FromFallback))
  }

  // ---------------------------------------------------------------------
  // Picking

  /** The count the previous/recent bucket picks: the recent count when a guided path has one, else the previous count. */
  function PreviousCount(guided: bool, counts: Counts): int
  {
    if guided && counts.Val(Recent) != 0 then counts.Val(Recent) else counts.Val(Previous)
  }

  /** The bucket picks in order: current by class targets, previous/recent and weakness by class bias. */
  function PickBuckets(pools: Pools, counts: Counts, guided: bool, verbs: Verbs, bias: ClassBias, rng: Rng)
    : (r: (seq<Item>, Rng))
    requires forall b: Bucket :: counts.Val(b) >= 0
    ensures Extends([], r.0, pools.All())
    ensures |r.0| <= counts.Total()
  {
    var all := pools.All();
    var (q1, g1) := PickWithClassTargets([], pools.current, counts.Val(Current), verbs, bias, rng);
    var (q2, g2) := PickWithClassBias(q1, pools.previous, PreviousCount(guided, counts), verbs, bias, g1);
    var (q3, g3) := PickWithClassBias(q2, pools.weakness, counts.Val(Weakness), verbs, bias, g2);
    assert SubsetOf(pools.current, all) && SubsetOf(pools.previous, all) && SubsetOf(pools.weakness, all);
    ExtendsTrans([], q1, q2, pools.current, pools.previous, all);
    ExtendsTrans([], q2, q3, all, pools.weakness, all);
    (q3, g3)
  }

  /** The bucket picks, then a fill from the fallback pool while the queue is short of `daily`. */
  function FillQueue(pools: Pools, counts: Counts, guided: bool, daily: int, verbs: Verbs, bias: ClassBias, rng: Rng)
    : (r: (seq<Item>, Rng))
    requires forall b: Bucket :: counts.Val(b) >= 0
    requires counts.Total() <= daily
    ensures Extends([], r.0, pools.All())
    ensures |r.0| <= daily
  {
    var (q, g) := PickBuckets(pools, counts, guided, verbs, bias, rng);
    if |q| < daily then
      var (q4, g4) := PickFromPool(q, pools.fallback, daily - |q|, g);
      assert SubsetOf(pools.fallback, pools.All());
      ExtendsTrans([], q, q4, pools.All(), pools.fallback, pools.All());
      (q4, g4)
    else (q, g)
  }

  // ---------------------------------------------------------------------
  // The lesson

  /** A built lesson: the queue, the path-state patch, and the lists and counts it was built from. */
  datatype LessonQueue = LessonQueue(
    queue: seq<Item>,
    patch: PathPatch,
    lists: TemplateLists,
    weaknessIds: seq<string>,
    composition: Composition,
    ikuInjected: bool,
    rng: Rng)

  /** What a lesson is drawn from: the template lists, the composition, the weakness templates and the pools. */
  datatype Plan = Plan(lists: TemplateLists, composition: Composition, weaknessIds: seq<string>, pools: Pools)

  /** `buildLessonQueue` before any pick: the lists, the bucket counts, the weakness templates and the four pools. */
  function MakePlan(guided: bool, config: LessonConfig, state: PathState, now: Time, unseen: seq<Pair>, daily: int,
                    cards: seq<Card>, mistakes: map<string, int>, reasons: seq<Reason>): (r: Plan)
    requires daily >= 1
    ensures r.lists == Lists(config, state, now)
    ensures forall b: Bucket :: r.composition.counts.Val(b) >= 0
    ensures r.composition.counts.Total() <= daily
    ensures forall x :: x in r.pools.All() ==> Honest(x, unseen, r.lists, r.weaknessIds)
  {
    var lists := Lists(config, state, now);
    var composition := CompositionWindow(guided, config.windows, state, Some(daily), now, lists.stage, reasons);
    var base := SelectWeaknessTemplates(cards, mistakes, lists.effective, Some(8));
    var weaknessIds := ConfusablePairBoost(base, config.confusablePairs, config.confusionTriggerErrors, mistakes, lists.effective);
    var previousSource := PreviousSource(guided, config, lists, composition.unlockedStageCount);
    var previousTag := if composition.counts.Val(Recent) != 0 then FromRecent else FromPrevious;
    Plan(lists, composition, weaknessIds, BuildPools(unseen, lists, previousSource, previousTag, weaknessIds))
  }

  /** `buildLessonQueue` up to the irregular policy: the plan and the filled queue. */
  function Draft(guided: bool, config: LessonConfig, state: PathState, now: Time, unseen: seq<Pair>, daily: int,
                 verbs: Verbs, cards: seq<Card>, mistakes: map<string, int>, reasons: seq<Reason>, rng: Rng)
    : (r: (seq<Item>, Plan, Rng))
    requires daily >= 1
    ensures r.1 == MakePlan(guided, config, state, now, unseen, daily, cards, mistakes, reasons)
    ensures |r.0| <= daily
    ensures DistinctPairs(r.0)
    ensures forall x :: x in r.0 ==> Honest(x, unseen, r.1.lists, r.1.weaknessIds)
  {
    var plan := MakePlan(guided, config, state, now, unseen, daily, cards, mistakes, reasons);
    var (q, g) := FillQueue(plan.pools, plan.composition.counts, guided, daily, verbs, plan.composition.boost.classBias, rng);
    ExtendsDistinct([], q, plan.pools.All());
    ExtendsMembers([], q, plan.pools.All());
    (q, plan, g)
  }

  /** Quota items are honest whatever the bucket lists: unseen pairs of effective templates, with quota labels. */
  lemma QuotaItemsHonest(q: seq<Item>, r: seq<Item>, unseen: seq<Pair>, lists: TemplateLists, weaknessIds: seq<string>,
                         verbs: Verbs)
    requires forall x :: x in q ==> Honest(x, unseen, lists, weaknessIds)
    requires forall x :: x in r ==> x in q || x in QuotaPools(unseen, lists.effective, verbs)
    ensures forall x :: x in r ==> Honest(x, unseen, lists, weaknessIds)
  {
    forall x | x in r ensures Honest(x, unseen, lists, weaknessIds) {
      if x !in q {
        assert x in IrregularPool(unseen, lists.effective, verbs) || x in IkuPool(unseen, lists.effective, verbs);
      }
    }
  }

  /** The irregular policy applied to a drafted queue, and the queue cut to `daily`. */
  function Finish(q: seq<Item>, plan: Plan, config: LessonConfig, state: PathState, now: Time, unseen: seq<Pair>,
                  daily: int, verbs: Verbs, rng: Rng): (r: LessonQueue)
    requires daily >= 1 && |q| <= daily && DistinctPairs(q)
    requires forall x :: x in q ==> Honest(x, unseen, plan.lists, plan.weaknessIds)
    ensures r.lists == plan.lists && r.weaknessIds == plan.weaknessIds
    ensures |r.queue| <= daily
    ensures DistinctPairs(r.queue)
    ensures forall x :: x in r.queue ==> Honest(x, unseen, r.lists, r.weaknessIds)
    ensures r.patch.lessonSessionCount == state.lessonSessionCount + 1
    ensures r.ikuInjected <==> r.patch.lastIkuSession.Some?
  {
    NormalizeStoreRoundTrip(state, now);
    var policy := EnforceIrregularPolicy(config.irregularPolicy, q, Some(daily), unseen, plan.lists.effective,
                                         plan.lists.active, verbs, Store(state), now, rng);
    QuotaItemsHonest(q, policy.queue, unseen, plan.lists, plan.weaknessIds, verbs);
    var queue := SliceTo(policy.queue, daily);
    assert queue == policy.queue;
    LessonQueue(queue, policy.patch, plan.lists, plan.weaknessIds, plan.composition, policy.ikuInjected, policy.rng)
  }

  /**
   `buildLessonQueue`: at most `dailyCount` (10) distinct unseen pairs of
   unlocked, non-deferred templates, each labelled with the bucket it was
   picked for, with the irregular quota and the いく item placed.
   */
  function BuildLessonQueue(
    guided: bool, config: LessonConfig, stored: StoredPathState, now: Time, unseen: seq<Pair>, dailyCount: Option<int>,
    verbs: Verbs, cards: seq<Card>, mistakes: map<string, int>, reasons: seq<Reason>, rng: Rng)
    : (r: LessonQueue)
    ensures r.lists == Lists(config, NormalizePathState(stored, now), now)
    ensures |r.queue| <= DailyBudget(dailyCount)
    ensures DistinctPairs(r.queue)
    ensures forall x :: x in r.queue ==> Honest(x, unseen, r.lists, r.weaknessIds)
    ensures r.patch.lessonSessionCount == NormalizePathState(stored, now).lessonSessionCount + 1
    ensures r.ikuInjected <==> r.patch.lastIkuSession.Some?
  {
    var state := NormalizePathState(stored, now);
    var daily := DailyBudget(dailyCount);
    var (q, plan, g) := Draft(guided, config, state, now, unseen, daily, verbs, cards, mistakes, reasons, rng);
    Finish(q, plan, config, state, now, unseen, daily, verbs, g)
  }

  /** Every lesson item is an unseen pair of an unlocked template that is not deferred. */
  lemma LessonTemplatesUnlocked(
    guided: bool, config: LessonConfig, stored: StoredPathState, now: Time, unseen: seq<Pair>, dailyCount: Option<int>,
    verbs: Verbs, cards: seq<Card>, mistakes: map<string, int>, reasons: seq<Reason>, rng: Rng)
    ensures var r := BuildLessonQueue(guided, config, stored, now, unseen, dailyCount, verbs, cards, mistakes, reasons, rng);
      forall x :: x in r.queue ==>
        && x.pair in unseen
        && x.pair.templateId in UnlockedTemplateIds(config.stages, NormalizePathState(stored, now))
        && x.pair.templateId !in r.lists.deferred
  {
    var r := BuildLessonQueue(guided, config, stored, now, unseen, dailyCount, verbs, cards, mistakes, reasons, rng);
    var lists := Lists(config, NormalizePathState(stored, now), now);
    assert r.lists == lists;
    assert forall x :: x in r.queue ==> x.pair.templateId in lists.effective;
  }

  // ---------------------------------------------------------------------
  // Deferred templates and the recent bucket

  /** The previous/recent bucket's list as the source chooses it, with the recent list as written. */
  function PreviousSourceAsWritten(guided: bool, config: LessonConfig, state: PathState, lists: TemplateLists,
                                   unlockedStageCount: int): (r: seq<string>)
    requires forall t :: t in lists.previous ==> t in UnlockedTemplateIds(config.stages, state)
    ensures forall t :: t in r ==> t in UnlockedTemplateIds(config.stages, state)
  {
    if guided && unlockedStageCount >= OrElse(config.windows.midCourseUnlockedForms, MaxSafeInteger)
    then RecentAsWritten(config, state)
    else lists.previous
  }

  /**
   A guided path in its mid-course tier, on day 1 of a stage whose
   override teaches "a" first and unlocks "b" on day 3: the source's
   recent bucket may pick "b" although it is deferred.
   */
  lemma DeferredLeaksAsWritten()
    ensures var stage := PathStage("s1", ["a", "b"]);
      var config := LessonConfig([stage], map["s1" := StageOverride(Some(["a"]), Some(3))],
                                 Windows(Some(1), None, None, None, None, None, None), [], None, None);
      var state := PathState(0, 0, 0, None, false, 0, 0, None, false);
      var lists := Lists(config, state, 0);
      && "b" in lists.deferred
      && "b" !in lists.effective
      && "b" in PreviousSourceAsWritten(true, config, state, lists, state.stageIndex + 1)
      && Item(Pair("v", "b"), FromRecent) in PoolOf([Pair("v", "b")], PreviousSourceAsWritten(true, config, state, lists, state.stageIndex + 1), FromRecent)
  {
    var stage := PathStage("s1", ["a", "b"]);
    var config := LessonConfig([stage], map["s1" := StageOverride(Some(["a"]), Some(3))],
                               Windows(Some(1), None, None, None, None, None, None), [], None, None);
    var state := PathState(0, 0, 0, None, false, 0, 0, None, false);
    var lists := Lists(config, state, 0);
    assert CurrentStage(config.stages, state) == Some(stage);
    assert DaysInStage(0, 0) == 1;
    assert IntroTemplates(StageOverride(Some(["a"]), Some(3)), ["a", "b"]) == ["a"];
    assert lists.active == ["a"];
    assert "b" in lists.current;
    assert "b" in RecentTemplateIds(config.stages, state, RecentStageWindow) by {
      assert WindowStart(0, RecentStageWindow) <= 0 && "b" in config.stages[0].templateIds;
    }
  }
}
