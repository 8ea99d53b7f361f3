/**
 The curriculum: a learning path is a list of stages, each introducing
 some conjugation templates. The path state records which stage the
 learner is on, and the stage gate decides from the learner's answers
 whether to advance, hold, or open a stabilisation window.
 */
module Curriculum {
  import opened Common
  import opened Scheduler

  datatype PathStage = PathStage(id: string, templateIds: seq<string>)

  // ---------------------------------------------------------------------
  // Path state

  /**
   A path-state record as stored. A field that is missing, has the wrong
   type, or (for a time) is not a valid timestamp reads as `None`; the two
   flags are already coerced to booleans.
   */
  datatype StoredPathState = StoredPathState(
    stageIndex: Option<int>,
    stageStartedAt: Option<Time>,
    failedGateCount: Option<int>,
    holdUntil: Option<Time>,
    completed: bool,
    lessonSessionCount: Option<int>,
    lastIkuSession: Option<int>,
    stabilizationUntil: Option<Time>,
    relaxedAccuracyMode: bool)

  datatype PathState = PathState(
    stageIndex: nat,
    stageStartedAt: Time,
    failedGateCount: nat,
    holdUntil: Option<Time>,
    completed: bool,
    lessonSessionCount: nat,
    lastIkuSession: nat,
    stabilizationUntil: Option<Time>,
    relaxedAccuracyMode: bool)

  /** A stored counter: kept when it is a non-negative number, else 0. */
  function Counter(x: Option<int>): nat
  {
    if x.Some? && x.value >= 0 then x.value else 0
  }

  /** `normalizePathState`: the defaults filled in for every missing or invalid field. */
  function NormalizePathState(stored: StoredPathState, now: Time): (r: PathState)
    ensures r.stageStartedAt == stored.stageStartedAt.GetOr(now)
    ensures stored.stageIndex.Some? && stored.stageIndex.value >= 0 ==> r.stageIndex == stored.stageIndex.value
    ensures stored.stageIndex.None? || stored.stageIndex.value < 0 ==> r.stageIndex == 0
    ensures stored.failedGateCount.Some? && stored.failedGateCount.value >= 0 ==> r.failedGateCount == stored.failedGateCount.value
    ensures stored.failedGateCount.None? || stored.failedGateCount.value < 0 ==> r.failedGateCount == 0
    ensures r.holdUntil == stored.holdUntil && r.stabilizationUntil == stored.stabilizationUntil
    ensures r.completed == stored.completed && r.relaxedAccuracyMode == stored.relaxedAccuracyMode
    ensures stored.lessonSessionCount.Some? && stored.lessonSessionCount.value >= 0 ==>
      r.lessonSessionCount == stored.lessonSessionCount.value
    ensures stored.lessonSessionCount.None? || stored.lessonSessionCount.value < 0 ==> r.lessonSessionCount == 0
    ensures stored.lastIkuSession.Some? && stored.lastIkuSession.value >= 0 ==> r.lastIkuSession == stored.lastIkuSession.value
    ensures stored.lastIkuSession.None? || stored.lastIkuSession.value < 0 ==> r.lastIkuSession == 0
  {
    PathState(
      Counter(stored.stageIndex),
      stored.stageStartedAt.GetOr(now),
      Counter(stored.failedGateCount),
      stored.holdUntil,
      stored.completed,
      Counter(stored.lessonSessionCount),
      Counter(stored.lastIkuSession),
      stored.stabilizationUntil,
      stored.relaxedAccuracyMode)
  }

  /** A normalised state written back as a stored record. */
  function Store(state: PathState): StoredPathState
  {
    StoredPathState(
      Some(state.stageIndex),
      Some(state.stageStartedAt),
      Some(state.failedGateCount),
      state.holdUntil,
      state.completed,
      Some(state.lessonSessionCount),
      Some(state.lastIkuSession),
      state.stabilizationUntil,
      state.relaxedAccuracyMode)
  }

  /** `dayDiffInclusive`: the whole days since `start`, plus one; never less than 1. */
  function DaysInStage(start: Time, now: Time): (d: nat)
    ensures d >= 1
    ensures (d - 1) * DayMs <= Max(0, now - start) < d * DayMs
  {
    Max(0, now - start) / DayMs + 1
  }

  // ---------------------------------------------------------------------
  // Stages

  /** The stage index clamped into the path. */
  function ClampedStageIndex(stages: seq<PathStage>, state: PathState): (i: nat)
    requires |stages| > 0
    ensures i < |stages|
    ensures i == state.stageIndex || (state.stageIndex >= |stages| && i == |stages| - 1)
  {
    Min(state.stageIndex, |stages| - 1)
  }

  /** `getCurrentStage`: the stage at the clamped index; none for an empty path. */
  function CurrentStage(stages: seq<PathStage>, state: PathState): (r: Option<PathStage>)
    ensures r.None? <==> |stages| == 0
    ensures r.Some? ==> r.value in stages
    ensures r.Some? && state.stageIndex < |stages| ==> r.value == stages[state.stageIndex]
  {
    if |stages| == 0 then None else Some(stages[ClampedStageIndex(stages, state)])
  }

  /** The template ids of stages `lo` up to `hi` (exclusive), stage by stage. */
  function StageIds(stages: seq<PathStage>, lo: nat, hi: nat): (r: seq<string>)
    requires lo <= hi <= |stages|
    ensures forall t :: t in r <==> exists i :: lo <= i < hi && t in stages[i].templateIds
    decreases hi - lo
  {
    if lo == hi then []
    else
      var rest := StageIds(stages, lo, hi - 1);
      rest + stages[hi - 1].templateIds
  }

  /**
   `getUnlockedTemplateIds`: the ids of every stage up to the current one,
   each once, in order of first appearance.
   */
  function UnlockedTemplateIds(stages: seq<PathStage>, state: PathState): (r: seq<string>)
    ensures |stages| == 0 ==> r == []
    ensures NoDuplicates(r)
    ensures |stages| > 0 ==> forall t ::
      t in r <==> exists i :: 0 <= i <= ClampedStageIndex(stages, state) && t in stages[i].templateIds
  {
    if |stages| == 0 then []
    else Dedup(StageIds(stages, 0, ClampedStageIndex(stages, state) + 1))
  }

  /** The unlocked ids come stage by stage, in order of first appearance. */
  lemma UnlockedOrder(stages: seq<PathStage>, state: PathState)
    requires |stages| > 0
    ensures InFirstOccurrenceOrder(UnlockedTemplateIds(stages, state), StageIds(stages, 0, ClampedStageIndex(stages, state) + 1))
  {
    DedupOrder(StageIds(stages, 0, ClampedStageIndex(stages, state) + 1));
  }

  /** The first stage of the trailing window of `window` stages ending at `last`. */
  function WindowStart(last: nat, window: int): int
  {
    Max(0, last - window + 1)
  }

  /**
   `getRecentTemplateIds`: the ids of the last `window` stages up to the
   current one, each once, in order of first appearance.
   */
  function RecentTemplateIds(stages: seq<PathStage>, state: PathState, window: int): (r: seq<string>)
    ensures |stages| == 0 || window <= 0 ==> r == []
    ensures NoDuplicates(r)
    ensures |stages| > 0 ==> forall t ::
      t in r <==> exists i :: WindowStart(ClampedStageIndex(stages, state), window) <= i <= ClampedStageIndex(stages, state)
                               && t in stages[i].templateIds
  {
    if |stages| == 0 then []
    else
      var last := ClampedStageIndex(stages, state);
      var first := WindowStart(last, window);
      if first > last then [] else Dedup(StageIds(stages, first, last + 1))
  }

  /** The recent ids come stage by stage over the window, in order of first appearance. */
  lemma RecentOrder(stages: seq<PathStage>, state: PathState, window: int)
    requires |stages| > 0 && window > 0
    ensures InFirstOccurrenceOrder(RecentTemplateIds(stages, state, window),
      StageIds(stages, WindowStart(ClampedStageIndex(stages, state), window), ClampedStageIndex(stages, state) + 1))
  {
    var last := ClampedStageIndex(stages, state);
    DedupOrder(StageIds(stages, WindowStart(last, window), last + 1));
  }

  // ---------------------------------------------------------------------
  // Gate profiles

  /**
   The thresholds of a stage gate, each possibly absent. `classThresholds`
   maps a verb class to its minimum accuracy, in key order.
   */
  datatype Gates = Gates(
    minAnswered: Option<int>,
    minAccuracy: Option<real>,
    classThresholds: seq<(string, real)>,
    holdDaysOnFail: Option<int>,
    minDaysInStage: Option<int>,
    maxDaysInStage: Option<int>,
    stabilizationDaysOnStall: Option<int>,
    relaxedAccuracyDelta: Option<real>)

  /** A band of stage numbers with its own gate overrides. */
  datatype GateBand = GateBand(id: Option<string>, minStage: Option<int>, maxStage: Option<int>, overrides: Gates)

  datatype PathConfig = PathConfig(stages: seq<PathStage>, gates: Gates, gateBands: seq<GateBand>)

  predicate HasKey(entries: seq<(string, real)>, key: string)
  {
    exists i :: 0 <= i < |entries| && entries[i].0 == key
  }

  /** The value of the first entry with `key`. */
  function Lookup(entries: seq<(string, real)>, key: string): real
    requires HasKey(entries, key)
  {
    if entries[0].0 == key then entries[0].1
    else
      assert HasKey(entries[1..], key) by {
        var i :| 0 <= i < |entries| && entries[i].0 == key;
        assert entries[1..][i - 1] == entries[i];
      }
      Lookup(entries[1..], key)
  }

  /** The entries of `next` whose key `base` lacks, in order. */
  function NewEntries(base: seq<(string, real)>, next: seq<(string, real)>): (r: seq<(string, real)>)
    ensures forall k :: HasKey(r, k) <==> HasKey(next, k) && !HasKey(base, k)
    ensures forall k :: HasKey(r, k) ==> Lookup(r, k) == Lookup(next, k)
    decreases |next|
  {
    if |next| == 0 then []
    else
      var rest := NewEntries(base, next[1..]);
      HasKeyTail(next);
      if HasKey(base, next[0].0) then rest
      else
        var r := [next[0]] + rest;
        HasKeyTail(r);
        assert r[1..] == rest;
        r
  }

  lemma HasKeyTail(entries: seq<(string, real)>)
    requires |entries| > 0
    ensures forall k :: HasKey(entries, k) <==> entries[0].0 == k || HasKey(entries[1..], k)
  {
    forall k | HasKey(entries, k) && entries[0].0 != k ensures HasKey(entries[1..], k) {
      var i :| 0 <= i < |entries| && entries[i].0 == k;
      assert entries[1..][i - 1] == entries[i];
    }
    forall k | HasKey(entries[1..], k) ensures HasKey(entries, k) {
      var i :| 0 <= i < |entries[1..]| && entries[1..][i].0 == k;
      assert entries[i + 1] == entries[1..][i];
    }
  }

  /** `base` with each value overridden from `next`, in place. */
  function Overridden(base: seq<(string, real)>, next: seq<(string, real)>): (r: seq<(string, real)>)
    ensures forall k :: HasKey(r, k) <==> HasKey(base, k)
    ensures forall k :: HasKey(r, k) ==> Lookup(r, k) == if HasKey(next, k) then Lookup(next, k) else Lookup(base, k)
    decreases |base|
  {
    if |base| == 0 then []
    else
      var k := base[0].0;
      var v := if HasKey(next, k) then Lookup(next, k) else base[0].1;
      HasKeyTail(base);
      var r := [(k, v)] + Overridden(base[1..], next);
      HasKeyTail(r);
      assert r[1..] == Overridden(base[1..], next);
      r
  }

  /**
   The class thresholds of `{...base, ...next}`: the keys of `base` in
   their order, then the new keys of `next`; `next` wins on a shared key.
   */
  function MergeThresholds(base: seq<(string, real)>, next: seq<(string, real)>): (r: seq<(string, real)>)
    ensures forall k :: HasKey(r, k) <==> HasKey(base, k) || HasKey(next, k)
    ensures forall k :: HasKey(r, k) ==> Lookup(r, k) == if HasKey(next, k) then Lookup(next, k) else Lookup(base, k)
  {
    var head := Overridden(base, next);
    var tail := NewEntries(base, next);
    AppendLookup(head, tail);
    head + tail
  }

  lemma {:induction false} AppendLookup(a: seq<(string, real)>, b: seq<(string, real)>)
    ensures forall k :: HasKey(a + b, k) <==> HasKey(a, k) || HasKey(b, k)
    ensures forall k :: HasKey(a, k) ==> Lookup(a + b, k) == Lookup(a, k)
    ensures forall k :: HasKey(b, k) && !HasKey(a, k) ==> Lookup(a + b, k) == Lookup(b, k)
    decreases |a|
  {
    if |a| == 0 {
      assert a + b == b;
    } else {
      AppendLookup(a[1..], b);
      assert (a + b)[1..] == a[1..] + b;
      HasKeyTail(a);
      HasKeyTail(a + b);
    }
  }

  function Override<T>(base: Option<T>, next: Option<T>): Option<T>
  {
    if next.Some? then next else base
  }

  /** A merged setting: the override's value when it sets one, else the base's. */
  predicate Merged<T(==)>(r: Option<T>, base: Option<T>, next: Option<T>)
  {
    (next.Some? ==> r == next) && (next.None? ==> r == base)
  }

  /** `mergeGateProfile`: every threshold `next` sets replaces the one in `base`. */
  function MergeGates(base: Gates, next: Gates): (r: Gates)
    ensures Merged(r.minAnswered, base.minAnswered, next.minAnswered)
    ensures Merged(r.minAccuracy, base.minAccuracy, next.minAccuracy)
    ensures Merged(r.holdDaysOnFail, base.holdDaysOnFail, next.holdDaysOnFail)
    ensures Merged(r.minDaysInStage, base.minDaysInStage, next.minDaysInStage)
    ensures Merged(r.maxDaysInStage, base.maxDaysInStage, next.maxDaysInStage)
    ensures Merged(r.stabilizationDaysOnStall, base.stabilizationDaysOnStall, next.stabilizationDaysOnStall)
    ensures Merged(r.relaxedAccuracyDelta, base.relaxedAccuracyDelta, next.relaxedAccuracyDelta)
    ensures forall k :: HasKey(r.classThresholds, k) <==> HasKey(base.classThresholds, k) || HasKey(next.classThresholds, k)
    ensures forall k :: HasKey(next.classThresholds, k) ==> Lookup(r.classThresholds, k) == Lookup(next.classThresholds, k)
    ensures forall k :: HasKey(base.classThresholds, k) && !HasKey(next.classThresholds, k) ==>
      Lookup(r.classThresholds, k) == Lookup(base.classThresholds, k)
  {
    Gates(
      Override(base.minAnswered, next.minAnswered),
      Override(base.minAccuracy, next.minAccuracy),
      MergeThresholds(base.classThresholds, next.classThresholds),
      Override(base.holdDaysOnFail, next.holdDaysOnFail),
      Override(base.minDaysInStage, next.minDaysInStage),
      Override(base.maxDaysInStage, next.maxDaysInStage),
      Override(base.stabilizationDaysOnStall, next.stabilizationDaysOnStall),
      Override(base.relaxedAccuracyDelta, next.relaxedAccuracyDelta))
  }

  /** The first stage number of a band: at least 1, defaulting to 1. */
  function BandMin(band: GateBand): (n: int)
    ensures n >= 1
  {
    Max(1, band.minStage.GetOr(1))
  }

  /** The last stage number of a band: never below its first, defaulting to it. */
  function BandMax(band: GateBand): (n: int)
    ensures n >= BandMin(band)
  {
    Max(BandMin(band), band.maxStage.GetOr(BandMin(band)))
  }

  predicate InBand(band: GateBand, stageNumber: int)
  {
    BandMin(band) <= stageNumber <= BandMax(band)
  }

  /** The position of the first band covering `stageNumber`. */
  function FirstBand(bands: seq<GateBand>, stageNumber: int): (r: Option<nat>)
    ensures r.Some? ==> r.value < |bands| && InBand(bands[r.value], stageNumber)
    ensures r.Some? ==> forall j :: 0 <= j < r.value ==> !InBand(bands[j], stageNumber)
    ensures r.None? ==> forall j :: 0 <= j < |bands| ==> !InBand(bands[j], stageNumber)
    decreases |bands|
  {
    if |bands| == 0 then None
    else if InBand(bands[0], stageNumber) then Some(0)
    else
      match FirstBand(bands[1..], stageNumber)
      case None =>
        assert forall j :: 1 <= j < |bands| ==> bands[j] == bands[1..][j - 1];
        None
      case Some(i) =>
        assert forall j :: 1 <= j <= i ==> bands[j] == bands[1..][j - 1];
        Some(i + 1)
  }

  datatype GateProfile = GateProfile(gates: Gates, band: Option<GateBand>)

  /**
   `resolveGateProfile`: the path's gates, overridden by the first band
   whose range covers the stage number (the index plus one).
   */
  function ResolveGateProfile(config: PathConfig, stageIndex: int): (r: GateProfile)
    ensures r.band.None? ==> r.gates == config.gates
    ensures r.band.None? ==> forall b :: b in config.gateBands ==> !InBand(b, Max(1, stageIndex + 1))
    ensures r.band.Some? ==> exists i :: (0 <= i < |config.gateBands| && config.gateBands[i] == r.band.value
      && InBand(r.band.value, Max(1, stageIndex + 1))
      && (forall j :: 0 <= j < i ==> !InBand(config.gateBands[j], Max(1, stageIndex + 1))))
    ensures r.band.Some? ==> r.gates == MergeGates(config.gates, r.band.value.overrides)
  {
    match FirstBand(config.gateBands, Max(1, stageIndex + 1))
    case None => GateProfile(config.gates, None)
    case Some(i) =>
      var band := config.gateBands[i];
      GateProfile(MergeGates(config.gates, band.overrides), Some(band))
  }

  // The thresholds as `evaluatePathAdvance` reads them.

  function MinAnswered(g: Gates): nat { Max(0, g.minAnswered.GetOr(0)) }

  function ClampUnit(x: real): (r: real)
    ensures 0.0 <= r <= 1.0
  {
    if x < 0.0 then 0.0 else if x > 1.0 then 1.0 else x
  }

  function MinAccuracy(g: Gates): real { ClampUnit(g.minAccuracy.GetOr(0.0)) }

  function HoldDaysOnFail(g: Gates): nat { Max(0, g.holdDaysOnFail.GetOr(0)) }

  function MinDaysInStage(g: Gates): nat { Max(0, g.minDaysInStage.GetOr(0)) }

  function MaxDaysInStage(g: Gates): nat { Max(0, g.maxDaysInStage.GetOr(0)) }

  function StabilizationDays(g: Gates): (d: nat)
    ensures d >= 1
  {
    Max(1, OrElse(g.stabilizationDaysOnStall, 2))
  }

  function RelaxedDelta(g: Gates): real
  {
    if g.relaxedAccuracyDelta.GetOr(0.0) < 0.0 then 0.0 else g.relaxedAccuracyDelta.GetOr(0.0)
  }

  /** The accuracy floor in force: lowered by the relaxed delta in relaxed mode, never below 0. */
  function EffectiveMinAccuracy(g: Gates, relaxed: bool): (r: real)
    ensures 0.0 <= r <= MinAccuracy(g)
    ensures !relaxed ==> r == MinAccuracy(g)
  {
    if !relaxed then MinAccuracy(g)
    else if MinAccuracy(g) - RelaxedDelta(g) < 0.0 then 0.0
    else MinAccuracy(g) - RelaxedDelta(g)
  }

  // ---------------------------------------------------------------------
  // The stage gate

  datatype Tally = Tally(successes: nat, failures: nat)
  {
    function Answered(): nat { successes + failures }

    /** The share answered correctly; 0 when nothing was answered. */
    function Accuracy(): (a: real)
      ensures 0.0 <= a <= 1.0
      ensures Answered() == 0 ==> a == 0.0
    {
      if Answered() == 0 then 0.0 else successes as real / Answered() as real
    }
  }

  /** The verb class of a card's verb, as a lower-case name; "" when the verb is unknown. */
  function ClassOf(classes: map<string, string>, verbId: string): string
  {
    if verbId in classes then classes[verbId] else ""
  }

  /** The cards that count toward the gate: in the stage and answered at least once. */
  predicate Counted(card: Card, stageIds: seq<string>)
  {
    card.templateId in stageIds && card.successes + card.failures > 0
  }

  /** Separate tallies for the three verb classes; any other class has none. */
  datatype ClassTallies = ClassTallies(godan: Tally, ichidan: Tally, irregular: Tally)
  {
    function For(verbClass: string): Tally
    {
      if verbClass == "godan" then godan
      else if verbClass == "ichidan" then ichidan
      else if verbClass == "irregular" then irregular
      else Tally(0, 0)
    }
  }

  function Add(t: Tally, card: Card): Tally
  {
    Tally(t.successes + card.successes, t.failures + card.failures)
  }

  /**
   The answers on the counted cards: in total, and per class of the card's
   verb. A card whose verb is unknown or of another class counts only in
   the total.
   */
  function Tallies(cards: seq<Card>, stageIds: seq<string>, classes: map<string, string>): (r: (Tally, ClassTallies))
    ensures r.1.godan.successes + r.1.ichidan.successes + r.1.irregular.successes <= r.0.successes
    ensures r.1.godan.failures + r.1.ichidan.failures + r.1.irregular.failures <= r.0.failures
    ensures (forall i :: 0 <= i < |cards| ==> !Counted(cards[i], stageIds)) ==> r.0 == Tally(0, 0)
    decreases |cards|
  {
    if |cards| == 0 then (Tally(0, 0), ClassTallies(Tally(0, 0), Tally(0, 0), Tally(0, 0)))
    else
      var (total, byClass) := Tallies(cards[1..], stageIds, classes);
      var c := cards[0];
      assert forall i :: 1 <= i < |cards| ==> cards[i] == cards[1..][i - 1];
      if !Counted(c, stageIds) then (total, byClass)
      else
        var k := ClassOf(classes, c.verbId);
        var b :=
          if k == "godan" then byClass.(godan := Add(byClass.godan, c))
          else if k == "ichidan" then byClass.(ichidan := Add(byClass.ichidan, c))
          else if k == "irregular" then byClass.(irregular := Add(byClass.irregular, c))
          else byClass;
        (Add(total, c), b)
  }

  datatype Reason = MinAnsweredReason | MinAccuracyReason | MinDaysReason | ClassAccuracy(verbClass: string) | HoldActive

  /** The fixed order reasons are reported in. */
  function ReasonRank(r: Reason): nat
  {
    match r
    case MinAnsweredReason => 0
    case MinAccuracyReason => 1
    case MinDaysReason => 2
    case ClassAccuracy(_) => 3
    case HoldActive => 4
  }

  /** A class threshold fails when the class has no answers or falls short of it. */
  predicate ThresholdFails(byClass: ClassTallies, entry: (string, real))
  {
    byClass.For(entry.0).Answered() == 0 || byClass.For(entry.0).Accuracy() < entry.1
  }

  /** Some threshold for class `c` fails. */
  ghost predicate FailingClass(thresholds: seq<(string, real)>, byClass: ClassTallies, c: string)
  {
    exists i :: 0 <= i < |thresholds| && thresholds[i].0 == c && ThresholdFails(byClass, thresholds[i])
  }

  lemma FailingClassCons(thresholds: seq<(string, real)>, byClass: ClassTallies)
    requires |thresholds| > 0
    ensures forall c :: FailingClass(thresholds, byClass, c) <==>
      ((thresholds[0].0 == c && ThresholdFails(byClass, thresholds[0])) || FailingClass(thresholds[1..], byClass, c))
  {
    forall c ensures FailingClass(thresholds, byClass, c) ==>
      ((thresholds[0].0 == c && ThresholdFails(byClass, thresholds[0])) || FailingClass(thresholds[1..], byClass, c))
    {
      if FailingClass(thresholds, byClass, c) {
        var i :| 0 <= i < |thresholds| && thresholds[i].0 == c && ThresholdFails(byClass, thresholds[i]);
        if i > 0 {
          assert thresholds[1..][i - 1] == thresholds[i];
        }
      }
    }
    forall c | FailingClass(thresholds[1..], byClass, c) ensures FailingClass(thresholds, byClass, c) {
      var i :| 0 <= i < |thresholds[1..]| && thresholds[1..][i].0 == c && ThresholdFails(byClass, thresholds[1..][i]);
      assert thresholds[i + 1] == thresholds[1..][i];
    }
  }

  function ClassReasons(thresholds: seq<(string, real)>, byClass: ClassTallies): (r: seq<Reason>)
    ensures forall x :: x in r ==> x.ClassAccuracy?
    ensures forall c :: ClassAccuracy(c) in r <==> FailingClass(thresholds, byClass, c)
    decreases |thresholds|
  {
    if |thresholds| == 0 then []
    else
      var rest := ClassReasons(thresholds[1..], byClass);
      FailingClassCons(thresholds, byClass);
      if ThresholdFails(byClass, thresholds[0]) then [ClassAccuracy(thresholds[0].0)] + rest else rest
  }

  /**
   Every gate check that fails, in the fixed order: answered count,
   accuracy, days in stage, then one entry per failing class threshold.
   */
  function GateReasons(g: Gates, relaxed: bool, daysInStage: nat, total: Tally, byClass: ClassTallies): (r: seq<Reason>)
    ensures MinAnsweredReason in r <==> total.Answered() < MinAnswered(g)
    ensures MinAccuracyReason in r <==> total.Accuracy() < EffectiveMinAccuracy(g, relaxed)
    ensures MinDaysReason in r <==> daysInStage < MinDaysInStage(g)
    ensures forall c :: ClassAccuracy(c) in r <==> FailingClass(g.classThresholds, byClass, c)
    ensures HoldActive !in r
    ensures RanksAscending(r)
  {
    var fixed := FixedReasons(
      total.Answered() < MinAnswered(g), total.Accuracy() < EffectiveMinAccuracy(g, relaxed), daysInStage < MinDaysInStage(g));
    var perClass := ClassReasons(g.classThresholds, byClass);
    RanksAscend(fixed, perClass);
    fixed + perClass
  }

  /** The answered-count, accuracy and days checks that failed, in that order. */
  function FixedReasons(fewAnswers: bool, lowAccuracy: bool, tooEarly: bool): (r: seq<Reason>)
    ensures MinAnsweredReason in r <==> fewAnswers
    ensures MinAccuracyReason in r <==> lowAccuracy
    ensures MinDaysReason in r <==> tooEarly
    ensures forall c :: ClassAccuracy(c) !in r
    ensures HoldActive !in r
    ensures forall i :: 0 <= i < |r| ==> ReasonRank(r[i]) <= 2
    ensures forall i, j :: 0 <= i < j < |r| ==> ReasonRank(r[i]) < ReasonRank(r[j])
  {
    (if fewAnswers then [MinAnsweredReason] else [])
    + (if lowAccuracy then [MinAccuracyReason] else [])
    + (if tooEarly then [MinDaysReason] else [])
  }

  /** Reasons appear in their fixed order. */
  predicate RanksAscending(r: seq<Reason>)
  {
    forall i, j :: 0 <= i < j < |r| ==> ReasonRank(r[i]) <= ReasonRank(r[j])
  }

  lemma RanksAscend(fixed: seq<Reason>, perClass: seq<Reason>)
    requires forall i :: 0 <= i < |fixed| ==> ReasonRank(fixed[i]) <= 2
    requires forall i, j :: 0 <= i < j < |fixed| ==> ReasonRank(fixed[i]) < ReasonRank(fixed[j])
    requires forall x :: x in perClass ==> x.ClassAccuracy?
    ensures RanksAscending(fixed + perClass)
  {
    var r := fixed + perClass;
    forall i, j | 0 <= i < j < |r| ensures ReasonRank(r[i]) <= ReasonRank(r[j]) {
      if j >= |fixed| {
        assert r[j] == perClass[j - |fixed|];
        assert perClass[j - |fixed|] in perClass;
      }
    }
  }

  /** The gate's verdict and the state it leaves behind. */
  datatype GateOutcome = GateOutcome(
    state: PathState,
    advanced: bool,
    completed: bool,
    passed: bool,
    reasons: seq<Reason>,
    answered: nat)

  /** A stabilisation window whose end has come is closed, and relaxed-accuracy mode begins. */
  function ExpireStabilization(state: PathState, now: Time): (r: PathState)
    ensures state.stabilizationUntil.Some? && now >= state.stabilizationUntil.value ==>
      r == state.(stabilizationUntil := None, relaxedAccuracyMode := true)
    ensures !(state.stabilizationUntil.Some? && now >= state.stabilizationUntil.value) ==> r == state
  {
    if state.stabilizationUntil.Some? && now >= state.stabilizationUntil.value then
      state.(stabilizationUntil := None, relaxedAccuracyMode := true)
    else state
  }

  predicate HoldIsActive(state: PathState, now: Time)
  {
    state.holdUntil.Some? && now < state.holdUntil.value
  }

  /** A passed gate: the next stage starts now, or the path completes at the last stage. */
  function Pass(state: PathState, index: nat, stageCount: nat, now: Time): (r: GateOutcome)
    requires index < stageCount
    ensures r.passed && r.reasons == []
    ensures r.state.failedGateCount == 0 && r.state.holdUntil.None? && r.state.stabilizationUntil.None?
    ensures !r.state.relaxedAccuracyMode
    ensures r.advanced <==> index < stageCount - 1
    ensures r.completed <==> !r.advanced
    ensures r.advanced ==> r.state.stageIndex == index + 1 && r.state.stageStartedAt == now
    ensures !r.advanced ==> r.state.stageIndex == index && r.state.stageStartedAt == state.stageStartedAt
    ensures r.state.lessonSessionCount == state.lessonSessionCount && r.state.lastIkuSession == state.lastIkuSession
  {
    var cleared := state.(failedGateCount := 0, holdUntil := None, stabilizationUntil := None, relaxedAccuracyMode := false);
    if index >= stageCount - 1 then
      GateOutcome(cleared.(stageIndex := index, completed := true), false, true, true, [], 0)
    else
      GateOutcome(cleared.(stageIndex := index + 1, stageStartedAt := now, completed := false), true, false, true, [], 0)
  }

  /**
   A failed gate: the failure counts, and a hold starts, only when enough
   answers were given; a stalled stage opens a stabilisation window once.
   */
  function Fail(state: PathState, g: Gates, answered: nat, daysInStage: nat, now: Time): (r: PathState)
    ensures r.stageIndex == state.stageIndex && r.stageStartedAt == state.stageStartedAt
    ensures r.failedGateCount == state.failedGateCount + (if answered >= MinAnswered(g) then 1 else 0)
    ensures answered >= MinAnswered(g) && HoldDaysOnFail(g) > 0 ==> r.holdUntil == Some(AddDays(now, HoldDaysOnFail(g)))
    ensures !(answered >= MinAnswered(g) && HoldDaysOnFail(g) > 0) ==> r.holdUntil == state.holdUntil
    ensures state.stabilizationUntil.Some? ==> r.stabilizationUntil == state.stabilizationUntil
    ensures r.stabilizationUntil != state.stabilizationUntil <==>
      MaxDaysInStage(g) > 0 && daysInStage >= MaxDaysInStage(g) && state.stabilizationUntil.None? && !state.relaxedAccuracyMode
    ensures r.stabilizationUntil != state.stabilizationUntil ==> r.stabilizationUntil == Some(AddDays(now, StabilizationDays(g)))
    ensures !r.completed && r.relaxedAccuracyMode == state.relaxedAccuracyMode
  {
    var enough := answered >= MinAnswered(g);
    var hold := if enough && HoldDaysOnFail(g) > 0 then Some(AddDays(now, HoldDaysOnFail(g))) else state.holdUntil;
    var stalled := MaxDaysInStage(g) > 0 && daysInStage >= MaxDaysInStage(g)
                   && state.stabilizationUntil.None? && !state.relaxedAccuracyMode;
    var window := if stalled then Some(AddDays(now, StabilizationDays(g))) else state.stabilizationUntil;
    state.(failedGateCount := state.failedGateCount + (if enough then 1 else 0), holdUntil := hold,
           completed := false, stabilizationUntil := window)
  }

  /**
   `evaluatePathAdvance`: decide the stage gate for the learner's cards at
   time `now`. `classes` gives each verb's class.
   */
  function EvaluatePathAdvance(config: PathConfig, stored: StoredPathState, cards: seq<Card>, classes: map<string, string>, now: Time): (r: GateOutcome)
    ensures |config.stages| == 0 ==>
      r == GateOutcome(NormalizePathState(stored, now).(completed := true), false, true, true, [], 0)
    ensures r.passed <==> r.reasons == []
    ensures r.advanced ==> r.passed && !r.completed
    ensures !r.passed ==> !r.completed && !r.advanced && r.state.stageIndex == NormalizePathState(stored, now).stageIndex
  {
    var state0 := NormalizePathState(stored, now);
    if |config.stages| == 0 then GateOutcome(state0.(completed := true), false, true, true, [], 0)
    else EvaluateStage(config, state0, cards, classes, now)
  }

  /** The gate evaluation proper, on a normalized state of a path with at least one stage. */
  function EvaluateStage(config: PathConfig, state0: PathState, cards: seq<Card>, classes: map<string, string>, now: Time): (r: GateOutcome)
    requires |config.stages| > 0
    ensures r.passed <==> r.reasons == []
    ensures r.advanced ==> r.passed && !r.completed
    ensures !r.passed ==> !r.completed && !r.advanced && r.state.stageIndex == state0.stageIndex
  {
    var index := ClampedStageIndex(config.stages, state0);
    var stageIds := config.stages[index].templateIds;
    var g := ResolveGateProfile(config, index).gates;
    var days := DaysInStage(state0.stageStartedAt, now);
    var state := ExpireStabilization(state0, now);
    if HoldIsActive(state, now) then GateOutcome(state, false, false, false, [HoldActive], 0)
    else
      var (total, byClass) := Tallies(cards, stageIds, classes);
      var answered := total.Answered();
      var reasons := GateReasons(g, state.relaxedAccuracyMode, days, total, byClass);
      if reasons == [] then Pass(state, index, |config.stages|, now).(answered := answered)
      else GateOutcome(Fail(state, g, answered, days, now), false, false, false, reasons, answered)
  }
}
