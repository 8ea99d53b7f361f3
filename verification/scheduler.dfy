/**
 The spaced-repetition scheduler: cards, the stage ladder
 LEARNING(0..2) → S1 … S6 → RETIRED, the review state machine, and the
 review queues built from a card store.
 */
module Scheduler {
  import opened Common
  import opened Sorting

  type LearningStep = s: int | 0 <= s <= 2

  type Level = n: int | 1 <= n <= 6 witness 1

  /** `stage` together with `learning_step`, which only means something while learning. */
  datatype Stage = Learning(step: LearningStep) | S(level: Level) | Retired

  const RequeueShort: nat := 8
  const RequeueLong: nat := 18
  const LeechThreshold: nat := 4

  /** `STAGE_INTERVALS_DAYS` */
  function IntervalDays(level: Level): nat
  {
    match level
    case 1 => 1
    case 2 => 3
    case 3 => 7
    case 4 => 14
    case 5 => 30
    case _ => 60
  }

  /** `STAGE_INTERVALS_DAYS[stage] || 1`: the interval of a numbered stage, else one day. */
  function StageInterval(stage: Stage): nat
  {
    if stage.S? then IntervalDays(stage.level) else 1
  }

  /** The position of a stage in `STAGE_ORDER`. */
  function StageOrderIndex(stage: Stage): (i: nat)
    ensures i <= 7
  {
    match stage
    case Learning(_) => 0
    case S(n) => n
    case Retired => 7
  }

  /** `nextStage`: the following entry of `STAGE_ORDER`; the last entry stays put. */
  function NextStage(stage: Stage): (r: Stage)
    ensures StageOrderIndex(r) == Min(StageOrderIndex(stage) + 1, 7)
    ensures r.Learning? ==> false
  {
    match stage
    case Learning(_) => S(1)
    case S(n) => if n == 6 then Retired else S(n + 1)
    case Retired => Retired
  }

  /** Distance travelled up the ladder, counting learning steps: 0 for a new card, 9 once retired. */
  function Progress(stage: Stage): (p: nat)
    ensures p <= 9
  {
    match stage
    case Learning(step) => step
    case S(n) => n + 2
    case Retired => 9
  }

  datatype Card = Card(
    verbId: string,
    templateId: string,
    stage: Stage,
    due: Option<Time>,
    lastReviewed: Option<Time>,
    successes: nat,
    failures: nat,
    hintUsedLast: bool,
    isLeech: bool)

  /** The documented card invariant: no due time exactly when retired. */
  predicate ValidCard(card: Card)
  {
    card.due.None? <==> card.stage.Retired?
  }

  /** `makeCardId` */
  function CardId(verbId: string, templateId: string): string
  {
    verbId + "::" + templateId
  }

  /** `createCard`: a fresh learning card, due at once. */
  function CreateCard(verbId: string, templateId: string, now: Time): (c: Card)
    ensures ValidCard(c) && IsDue(c, now)
    ensures CardId(c.verbId, c.templateId) == CardId(verbId, templateId)
    ensures Progress(c.stage) == 0 && c.successes == 0 && c.failures == 0 && !c.isLeech
  {
    Card(verbId, templateId, Learning(0), Some(now), None, 0, 0, false, false)
  }

  /** `isDue`: a card without a due time is never due. */
  predicate IsDue(card: Card, now: Time)
  {
    card.due.Some? && card.due.value <= now
  }

  datatype ReviewOutcome = Outcome(card: Card, requeueAfter: nat)

  /** `Math.max(1, Math.floor(interval * 0.5))` */
  function HalvedInterval(interval: nat): (d: nat)
    ensures 1 <= d && (interval >= 1 ==> d <= interval)
    ensures interval >= 2 ==> 2 * d <= interval < 2 * d + 2
  {
    Max(1, interval / 2)
  }

  /**
   `applyReviewResult` exactly as the source writes it, including the
   branch that gives a retired card a due time again (see `ApplyReview`).
   */
  function ApplyReviewAsWritten(card: Card, now: Time, correct: bool, hintUsed: bool): (r: ReviewOutcome)
    ensures r.card.verbId == card.verbId && r.card.templateId == card.templateId
    ensures r.card.lastReviewed == Some(now) && r.card.hintUsedLast == hintUsed
    ensures correct ==> r.card.successes == card.successes + 1 && r.card.failures == card.failures
    ensures !correct ==> r.card.failures == card.failures + 1 && r.card.successes == card.successes
    ensures r.card.isLeech <==> card.isLeech || (!correct && card.failures + 1 >= LeechThreshold)
  {
    var seen := card.(lastReviewed := Some(now), hintUsedLast := hintUsed);
    if correct then
      var c := seen.(successes := card.successes + 1);
      if hintUsed then
        if card.stage.Learning? then Outcome(c.(due := Some(now)), RequeueShort)
        else Outcome(c.(due := Some(AddDays(now, HalvedInterval(StageInterval(card.stage))))), 0)
      else
        match card.stage
        case Learning(step) =>
          if step < 2 then
            Outcome(c.(stage := Learning(step + 1), due := Some(now)), if step + 1 == 1 then RequeueShort else RequeueLong)
          else
            Outcome(c.(stage := S(1), due := Some(AddDays(now, IntervalDays(1)))), 0)
        case S(n) =>
          if n == 6 then Outcome(c.(stage := Retired, due := None), 0)
          else
            var next := NextStage(card.stage);
            Outcome(c.(stage := next, due := Some(AddDays(now, StageInterval(next)))), 0)
        case Retired => Outcome(c, 0)
    else
      var failures := card.failures + 1;
      var c := seen.(failures := failures, isLeech := card.isLeech || failures >= LeechThreshold);
      match card.stage
      case S(n) =>
        var demoted := if n == 1 then 1 else Max(1, n - 2);
        Outcome(c.(stage := S(demoted), due := Some(AddDays(now, 1))), 0)
      case _ =>
        Outcome(c.(stage := Learning(0), due := Some(AddDays(now, IntervalDays(1)))), RequeueShort)
  }

  /**
   `applyReviewResult` with the retired-and-hinted branch corrected: a
   retired card answered correctly keeps its (absent) due time whether or
   not a hint was used, so it never re-enters the review queue.
   */
  function ApplyReview(card: Card, now: Time, correct: bool, hintUsed: bool): (r: ReviewOutcome)
    ensures r.card.verbId == card.verbId && r.card.templateId == card.templateId
    ensures r.card.lastReviewed == Some(now) && r.card.hintUsedLast == hintUsed
    ensures correct ==> r.card.successes == card.successes + 1 && r.card.failures == card.failures
    ensures !correct ==> r.card.failures == card.failures + 1 && r.card.successes == card.successes
    ensures r.card.isLeech <==> card.isLeech || (!correct && card.failures + 1 >= LeechThreshold)
    ensures ValidCard(card) ==> ValidCard(r.card)
    ensures correct && hintUsed ==> r.card.stage == card.stage
    ensures correct && !hintUsed ==> Progress(r.card.stage) == Min(Progress(card.stage) + 1, 9)
    ensures !correct ==> Progress(r.card.stage) <= Progress(card.stage) && !r.card.stage.Retired?
    ensures r.requeueAfter > 0 ==> r.card.stage.Learning?
    ensures ValidCard(card) && r.card.due.Some? ==> now <= r.card.due.value <= AddDays(now, 60)
  {
    var w := ApplyReviewAsWritten(card, now, correct, hintUsed);
    if card.stage.Retired? && correct && hintUsed then Outcome(w.card.(due := card.due), w.requeueAfter)
    else w
  }

  // ---------------------------------------------------------------------
  // Review queues

  /** Order by due time; cards without one sort as time 0 (they never reach the sort). */
  function DueKey(card: Card): Time
  {
    card.due.GetOr(0)
  }

  predicate DueBefore(a: Card, b: Card)
  {
    DueKey(a) <= DueKey(b)
  }

  lemma DueBeforeIsTotal()
    ensures TotalPreorder(DueBefore)
  {
  }

  /** `buildDailyReviewQueue`: the due cards, earliest due time first. */
  function DailyReviewQueue(cards: seq<Card>, now: Time): (r: seq<Card>)
    ensures forall c :: c in r <==> c in cards && IsDue(c, now)
    ensures multiset(r) == multiset(Filter(cards, (c: Card) => IsDue(c, now)))
    ensures SortedBy(r, DueBefore)
  {
    var due := Filter(cards, (c: Card) => IsDue(c, now));
    DueBeforeIsTotal();
    SortSorted(due, DueBefore);
    forall c ensures c in Sort(due, DueBefore) <==> c in due {
      SortMembers(due, DueBefore, c);
    }
    Sort(due, DueBefore)
  }

  /** Share of correct answers; 1 for a card never answered. */
  function Accuracy(card: Card): real
  {
    var attempts := card.successes + card.failures;
    if attempts == 0 then 1.0 else card.successes as real / attempts as real
  }

  /** The weakness comparator: leeches first, then more failures, then lower accuracy. */
  predicate WeaknessBefore(a: Card, b: Card)
  {
    if a.isLeech != b.isLeech then a.isLeech
    else if a.failures != b.failures then a.failures > b.failures
    else Accuracy(a) <= Accuracy(b)
  }

  lemma WeaknessBeforeIsTotal()
    ensures TotalPreorder(WeaknessBefore)
  {
  }

  /** The cards with at least one failure, weakest first. */
  function RankByWeakness(cards: seq<Card>): (r: seq<Card>)
    ensures forall c :: c in r <==> c in cards && c.failures > 0
    ensures multiset(r) == multiset(Filter(cards, (c: Card) => c.failures > 0))
    ensures SortedBy(r, WeaknessBefore)
  {
    var failed := Filter(cards, (c: Card) => c.failures > 0);
    WeaknessBeforeIsTotal();
    SortSorted(failed, WeaknessBefore);
    forall c ensures c in Sort(failed, WeaknessBefore) <==> c in failed {
      SortMembers(failed, WeaknessBefore, c);
    }
    Sort(failed, WeaknessBefore)
  }

  /**
   `buildWeaknessQueue`: the cards with at least one failure, weakest
   first, cut by `slice(0, count)`.
   */
  function WeaknessQueue(cards: seq<Card>, count: int): (r: seq<Card>)
    ensures forall c :: c in r ==> c in cards && c.failures > 0
    ensures SortedBy(r, WeaknessBefore)
    ensures r <= RankByWeakness(cards)
    ensures count >= 0 ==> |r| == Min(count, |RankByWeakness(cards)|)
    ensures count < 0 ==> |r| == Max(|RankByWeakness(cards)| + count, 0)
    ensures count >= |cards| ==> multiset(r) == multiset(Filter(cards, (c: Card) => c.failures > 0))
  {
    var ranked := RankByWeakness(cards);
    var r := SliceTo(ranked, count);
    assert forall c :: c in r ==> c in ranked;
    assert count >= |cards| ==> r == ranked;
    r
  }

  // ---------------------------------------------------------------------
  // Enabled forms

  datatype TemplateInfo = TemplateInfo(id: string, active: bool)

  const DictionaryTemplateId: string := "plain_dictionary"

  /** The ids the settings may enable: active templates other than the dictionary form, in order. */
  function EligibleIds(templates: seq<TemplateInfo>): (r: seq<string>)
    ensures forall id :: id in r <==> exists t :: t in templates && t.active && t.id != DictionaryTemplateId && t.id == id
    decreases |templates|
  {
    if |templates| == 0 then []
    else
      var t := templates[0];
      var rest := EligibleIds(templates[1..]);
      assert forall u :: u in templates[1..] ==> u in templates;
      assert forall u :: u in templates ==> u == t || u in templates[1..];
      if t.active && t.id != DictionaryTemplateId then [t.id] + rest else rest
  }

  /**
   `normalizeEnabledForms`: no setting (`None`) enables every eligible
   template, an empty list enables none, and otherwise the setting's ids
   are kept, in their order, when eligible.
   */
  function NormalizeEnabledForms(templates: seq<TemplateInfo>, enabled: Option<seq<string>>): (r: seq<string>)
    ensures enabled.None? ==> r == EligibleIds(templates)
    ensures enabled.Some? ==> forall id :: id in r <==> id in enabled.value && id in EligibleIds(templates)
    ensures enabled.Some? ==> |r| <= |enabled.value|
    ensures enabled.Some? ==> IsSubsequence(r, enabled.value)
    ensures enabled.Some? ==> forall id :: id in EligibleIds(templates) ==> multiset(r)[id] == multiset(enabled.value)[id]
  {
    var eligible := EligibleIds(templates);
    match enabled
    case None => eligible
    case Some(ids) =>
      if |ids| == 0 then []
      else
        FilterOrder(ids, (id: string) => id in eligible);
        Filter(ids, (id: string) => id in eligible)
  }
}
