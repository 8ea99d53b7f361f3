/**
 Laws of the curriculum: normalisation is a projection, the unlocked list
 grows with the stage index and holds the recent list, and the stage
 gate's hold, pass and fail branches do what the path promises.
 */
module CurriculumLaws {
  import opened Common
  import opened Scheduler
  import opened Curriculum

  // ---------------------------------------------------------------------
  // Normalisation

  /** A normalised state survives being stored and normalised again, at any time. */
  lemma NormalizeStoreRoundTrip(state: PathState, now: Time)
    ensures NormalizePathState(Store(state), now) == state
  {
  }

  /** Normalising twice is normalising once. */
  lemma NormalizeIdempotent(stored: StoredPathState, now: Time, later: Time)
    ensures NormalizePathState(Store(NormalizePathState(stored, now)), later) == NormalizePathState(stored, now)
  {
    NormalizeStoreRoundTrip(NormalizePathState(stored, now), later);
  }

  // ---------------------------------------------------------------------
  // Unlocked and recent templates

  /** The ids of a shorter run of stages from the first are a prefix of those of a longer one. */
  lemma {:induction false} StageIdsPrefix(stages: seq<PathStage>, hi: nat, hi2: nat)
    requires hi <= hi2 <= |stages|
    ensures StageIds(stages, 0, hi) <= StageIds(stages, 0, hi2)
    decreases hi2 - hi
  {
    if hi < hi2 {
      StageIdsPrefix(stages, hi, hi2 - 1);
      assert StageIds(stages, 0, hi2) == StageIds(stages, 0, hi2 - 1) + stages[hi2 - 1].templateIds;
    }
  }

  /**
   Moving on to a later stage only appends to the unlocked list: earlier ids
   keep their positions, and the ids of the stage reached are all unlocked.
   */
  lemma UnlockedGrows(stages: seq<PathStage>, state: PathState, later: PathState)
    requires state.stageIndex <= later.stageIndex
    ensures UnlockedTemplateIds(stages, state) <= UnlockedTemplateIds(stages, later)
    ensures |stages| > 0 ==> forall t :: t in stages[ClampedStageIndex(stages, later)].templateIds ==>
      t in UnlockedTemplateIds(stages, later)
  {
    if |stages| > 0 {
      var hi := ClampedStageIndex(stages, state) + 1;
      var hi2 := ClampedStageIndex(stages, later) + 1;
      StageIdsPrefix(stages, hi, hi2);
      var ids := StageIds(stages, 0, hi);
      var ids2 := StageIds(stages, 0, hi2);
      assert ids2 == ids + ids2[|ids|..];
      DedupPrefix(ids, ids2[|ids|..]);
    }
  }

  /** A single stage without repeated ids unlocks its templates exactly, in the stage's own order. */
  lemma UnlockedSingleStage(stage: PathStage, state: PathState)
    requires NoDuplicates(stage.templateIds)
    ensures UnlockedTemplateIds([stage], state) == stage.templateIds
  {
    assert StageIds([stage], 0, 1) == [] + stage.templateIds;
    assert [] + stage.templateIds == stage.templateIds;
    DedupDistinct(stage.templateIds);
  }

  /** Every recent id is unlocked, and a window reaching back to the first stage makes them the same list. */
  lemma RecentWithinUnlocked(stages: seq<PathStage>, state: PathState, window: int)
    ensures forall t :: t in RecentTemplateIds(stages, state, window) ==> t in UnlockedTemplateIds(stages, state)
    ensures |stages| > 0 && window > ClampedStageIndex(stages, state) ==>
      RecentTemplateIds(stages, state, window) == UnlockedTemplateIds(stages, state)
  {
  }

  /** The current stage's ids are unlocked, and recent for any window of at least one stage. */
  lemma CurrentStageUnlocked(stages: seq<PathStage>, state: PathState, window: int)
    requires CurrentStage(stages, state).Some?
    ensures forall t :: t in CurrentStage(stages, state).value.templateIds ==> t in UnlockedTemplateIds(stages, state)
    ensures window >= 1 ==> forall t :: t in CurrentStage(stages, state).value.templateIds ==> t in RecentTemplateIds(stages, state, window)
  {
    var i := ClampedStageIndex(stages, state);
    assert WindowStart(i, window) <= i || window < 1;
  }

  // ---------------------------------------------------------------------
  // The stage gate

  /** The gates in force for the current stage. */
  function StageGates(config: PathConfig, state: PathState): Gates
    requires |config.stages| > 0
  {
    ResolveGateProfile(config, ClampedStageIndex(config.stages, state)).gates
  }

  /** The tallies of the current stage's answers. */
  function StageTallies(config: PathConfig, state: PathState, cards: seq<Card>, classes: map<string, string>): (Tally, ClassTallies)
    requires |config.stages| > 0
  {
    Tallies(cards, config.stages[ClampedStageIndex(config.stages, state)].templateIds, classes)
  }

  /** An active hold blocks the gate and leaves the stage, the failure count and the hold alone. */
  lemma HoldBlocks(config: PathConfig, stored: StoredPathState, cards: seq<Card>, classes: map<string, string>, now: Time)
    requires |config.stages| > 0
    requires HoldIsActive(NormalizePathState(stored, now), now)
    ensures var s0 := NormalizePathState(stored, now);
      var r := EvaluatePathAdvance(config, stored, cards, classes, now);
      && !r.passed && !r.advanced && !r.completed
      && r.reasons == [HoldActive]
      && r.state.stageIndex == s0.stageIndex
      && r.state.failedGateCount == s0.failedGateCount
      && r.state.holdUntil == s0.holdUntil
  {
  }

  /** A stabilisation window that has ended is closed, and a failing gate leaves relaxed mode on. */
  lemma StabilizationExpires(config: PathConfig, stored: StoredPathState, cards: seq<Card>, classes: map<string, string>, now: Time)
    requires |config.stages| > 0
    requires NormalizePathState(stored, now).stabilizationUntil.Some?
    requires now >= NormalizePathState(stored, now).stabilizationUntil.value
    ensures var r := EvaluatePathAdvance(config, stored, cards, classes, now);
      r.state.stabilizationUntil.None? && (!r.passed ==> r.state.relaxedAccuracyMode)
  {
  }

  /** Outside a hold, the verdict is exactly the list of failed checks. */
  lemma GateVerdict(config: PathConfig, stored: StoredPathState, cards: seq<Card>, classes: map<string, string>, now: Time)
    requires |config.stages| > 0
    requires !HoldIsActive(NormalizePathState(stored, now), now)
    ensures var s0 := NormalizePathState(stored, now);
      var (total, byClass) := StageTallies(config, s0, cards, classes);
      var relaxed := ExpireStabilization(s0, now).relaxedAccuracyMode;
      EvaluatePathAdvance(config, stored, cards, classes, now).reasons
        == GateReasons(StageGates(config, s0), relaxed, DaysInStage(s0.stageStartedAt, now), total, byClass)
  {
  }

  /**
   A passed gate opens the next stage now, or completes the path at the
   last stage; either way failures, hold, stabilisation and relaxed mode
   are reset.
   */
  lemma PassLaw(config: PathConfig, stored: StoredPathState, cards: seq<Card>, classes: map<string, string>, now: Time)
    requires |config.stages| > 0
    ensures var s0 := NormalizePathState(stored, now);
      var r := EvaluatePathAdvance(config, stored, cards, classes, now);
      r.passed ==>
        && r.state.failedGateCount == 0 && r.state.holdUntil.None? && r.state.stabilizationUntil.None?
        && !r.state.relaxedAccuracyMode
        && (r.advanced <==> s0.stageIndex < |config.stages| - 1)
        && (r.advanced ==> r.state.stageIndex == s0.stageIndex + 1 && r.state.stageStartedAt == now && !r.completed)
        && (!r.advanced ==> r.completed && r.state.stageIndex == |config.stages| - 1)
  {
  }

  /**
   A failed gate keeps the stage; the failure is counted, and a hold set,
   only when enough answers were given; a stalled stage opens one
   stabilisation window.
   */
  lemma FailLaw(config: PathConfig, stored: StoredPathState, cards: seq<Card>, classes: map<string, string>, now: Time)
    requires |config.stages| > 0
    requires !HoldIsActive(NormalizePathState(stored, now), now)
    ensures var s0 := NormalizePathState(stored, now);
      var s := ExpireStabilization(s0, now);
      var g := StageGates(config, s0);
      var enough := StageTallies(config, s0, cards, classes).0.Answered() >= MinAnswered(g);
      var days := DaysInStage(s0.stageStartedAt, now);
      var r := EvaluatePathAdvance(config, stored, cards, classes, now);
      !r.passed ==>
        && r.state.stageIndex == s0.stageIndex
        && r.state.failedGateCount == s0.failedGateCount + (if enough then 1 else 0)
        && (enough && HoldDaysOnFail(g) > 0 ==> r.state.holdUntil == Some(AddDays(now, HoldDaysOnFail(g))))
        && (!(enough && HoldDaysOnFail(g) > 0) ==> r.state.holdUntil == s0.holdUntil)
        && (r.state.stabilizationUntil != s.stabilizationUntil <==>
              MaxDaysInStage(g) > 0 && days >= MaxDaysInStage(g) && s.stabilizationUntil.None? && !s.relaxedAccuracyMode)
  {
  }
}
