# Japanese verb trainer core, in Dafny

This project models the core of a Japanese verb-conjugation trainer. It has
three engines and proves what each promises:

- **The conjugation engine.** It turns a verb record (kana, verb class,
  optional manual forms) and a template id into the conjugated form. It
  covers godan sound changes and the a-, i- and e-row shifts, ichidan
  suffixes, the table for the irregular verbs する, くる and ある, progressive
  forms built on the te-form, and the accepted variants of
  〜なければいけない.
- **The review scheduler.** Each card climbs the ladder LEARNING (steps
  0–2) → S1 … S6 → RETIRED. A correct answer promotes the card. A hinted
  answer waits half an interval. A wrong answer demotes it. The leech flag
  is sticky. The daily queue and the weakness queue are built from the card
  store. The enabled-forms setting is normalised, and the place where a
  missed card is requeued is computed.
- **The lesson engine.** It builds a guided-path lesson:
  - the path state is normalised;
  - unlocked, recent and deferred templates are worked out;
  - a stage gate decides to advance, hold or stabilise;
  - the bucket composition is clamped to the daily budget;
  - weakness templates and confusable-pair partners are chosen;
  - picks are biased by verb class;
  - the irregular-verb policy enforces a minimum number of irregular
    verbs and a periodic いく item.

Everything is pure functions over immutable datatypes.

- Where the source mutates a queue in place, the model returns the new
  queue.
- Where the source calls `rng()`, the model threads an explicit sequence
  of draws (`Random.Rng`).
- Timestamps are integer milliseconds.

The modules follow the source's structure:

| module | models |
|---|---|
| `Common`, `Sorting` | shared helpers: de-duplication, filtering, `x \|\| d` fallbacks, an insertion sort with its proofs |
| `Random` | `randomIndex`, `shuffle` and `getRequeueInsertIndex` |
| `Conjugation`, `ConjugationLaws` | `conjugate`, `conjugateAccepted` and the laws relating forms to each other |
| `Scheduler`, `SchedulerLaws` | cards, `applyReviewResult`, the review queues and `normalizeEnabledForms` |
| `Curriculum`, `CurriculumLaws` | path state, unlocked and recent templates, gate profiles and `evaluatePathAdvance` |
| `Composition` | `clampCounts`, `deriveGateBoost` and `computeCompositionWindow` |
| `Weakness` | `selectWeaknessTemplates` and `applyConfusablePairBoost` |
| `Picking` | `pickFromPool`, `buildClassTargets`, `pickWithClassTargets` and `pickWithClassBias` |
| `Irregular` | `selectCandidate`, `findReplaceIndexForQuota`, `ensureCardInQueue` and `enforceIrregularPolicy` |
| `Lesson` | `getStageCurrentTemplateIds` and `buildLessonQueue` |

A wrong answer on an S1 card leaves it at S1, due one day later: the
demotion in src/core/index.js:857-869 applies only to stages above S1
(`SchedulerLaws.Incorrect`).

## Model

| member | source | states |
|---|---|---|
| Conjugation.Stem | src/core/index.js:462-464 | the stem and the final kana together give back the dictionary form |
| Conjugation.Last | src/core/index.js:462-464 | the last kana is at most one character, and stem plus last is the whole verb |
| Conjugation.Shift | src/core/index.js:278-312 | a row lookup succeeds exactly for the nine godan endings; the kana it yields belongs to the requested row, and reading that row back gives the original ending |
| Conjugation.RowForm | src/core/index.js:469-470 | a row-shifted form (corrected) succeeds exactly when the last kana is one of the nine endings, and otherwise names that ending in its error; a success keeps the stem and the suffix, and its shifted kana reads back to the original ending |
| Conjugation.RowFormAsWritten | src/core/index.js:469-470 | as written, a known ending gives the corrected form, and an unknown ending splices the text "undefined" into the word |
| Conjugation.GodanSoundChange | src/core/index.js:353-389 | the past and te sound changes fail exactly for endings outside their tables |
| Common.DedupOrder | src/core/index.js:663-671 | de-duplication keeps each value at the place of its first occurrence |
| Common.FilterOrder | src/core/index.js:663-671 | filtering keeps the order of what it keeps, and every occurrence of a value that passes |
| Conjugation.UniqueValues | src/core/index.js:663-671 | the result holds each non-empty input string exactly once and nothing else |
| Conjugation.ConjugateAccepted | src/core/index.js:673-690 | errors pass through; every template except なければいけない accepts only the canonical form; for なければいけない the answers have no repeats, the canonical form comes first, and every one of the three obligation variants of the negative stem is accepted, with nothing else besides the canonical form |
| ConjugationLaws.ManualOverrideWins | src/core/index.js:550-553 | a non-empty manual form is returned for every verb class |
| ConjugationLaws.ProgressiveLaw | src/core/index.js:555-565 | each progressive template is the te-form followed by its いる-suffix |
| ConjugationLaws.GodanBaseForms | src/core/index.js:471-482 | the godan past and te-forms are the sound-changed forms with the verb's exceptions applied |
| ConjugationLaws.IchidanSuffixForm | src/core/index.js:402-460 | every suffix template of an ichidan verb is its stem plus that template's suffix |
| ConjugationLaws.IchidanBaseForms | src/core/index.js:639-652 | ichidan て, た and てください honour the te and past exceptions |
| ConjugationLaws.SpecialCaseLaw | src/core/index.js:391-400 | a non-empty exception entry decides the form whatever was generated; without one the generated form passes through; applying the table twice is applying it once |
| ConjugationLaws.TeDerivedForms | src/core/index.js:515-522 | for every class, てください, ておく and てしまう are the te-form plus their suffix, provided neither the form nor the te-form has a manual override, and (for ておく and てしまう of an ichidan verb) the verb has no te-form exception |
| ConjugationLaws.TeDerivedBypass | src/core/index.js:515-522 | the cases the previous row leaves out: godan forms build on the sound-changed te-form; ichidan ておく and てしまう ignore the te exception (stem + て + suffix) while てください honours it; irregular ておく and てしまう follow a manual te-form, while てください takes the table's te-form |
| ConjugationLaws.PastDerivedForms | src/core/index.js:503-510 | for every class, たら and たりする are the past form plus ら and りする, provided neither the form nor the past form has a manual override and an ichidan verb has no past exception |
| ConjugationLaws.PastDerivedBypass | src/core/index.js:503-510 | the cases the previous row leaves out: godan forms build on the sound-changed past; ichidan forms ignore the past exception (stem + た + suffix); irregular forms follow the past form, manual or not |
| ConjugationLaws.NegativeDerivedForms | src/core/index.js:531-538 | for every class, なかった, なければいけない and なくてもいい replace the final ない of the plain negative |
| ConjugationLaws.ContinuativeStemLaw | src/core/index.js:483-490 | for every class, the polite and continuative templates share the polite stem: each one swaps the ます of the polite form for its own ending |
| ConjugationLaws.PastTeCorrespondence | src/core/index.js:353-389 | past and te-form fail together, and the te-form is the past form with its final た/だ turned into て/で |
| ConjugationLaws.GodanRowLaw | src/core/index.js:462-542 | a row-shifted godan form succeeds exactly for the nine endings, and the dictionary form can be read back from the result |
| ConjugationLaws.GodanRowForm | src/core/index.js:495-512 | every shifted godan template is the row form of its row and suffix |
| ConjugationLaws.RowFormRecover | src/core/index.js:278-312 | the row tables are injective: a successful row form determines the dictionary form |
| ConjugationLaws.UndefinedRowCounterexample | src/core/index.js:469-470 | for a godan verb ending in え the source writes "かundefinedない", where the corrected model reports the unsupported ending |
| ConjugationLaws.RowFormAsWrittenLaw | src/core/index.js:469-470 | the as-written and corrected row forms agree on every supported ending and differ only by the "undefined" text otherwise |
| ConjugationLaws.GodanSoundChangeDomain | src/core/index.js:471-482 | godan past and te-form fail exactly for unsupported endings, with that ending named in the error |
| ConjugationLaws.GodanTeException | src/core/index.js:479-522 | a te-form exception for a godan verb carries through to てください, ておく and てしまう |
| ConjugationLaws.IchidanDomain | src/core/index.js:639-654 | an ichidan template fails exactly when it is not one of the listed templates; the dictionary and prohibitive forms keep the whole kana |
| ConjugationLaws.IrregularNeedsTable | src/core/index.js:567-571 | an irregular verb fails with a missing-table error exactly when its kana has no irregular table |
| ConjugationLaws.AcceptedObligationExact | src/core/index.js:679-689 | when the negative ends in ない, the accepted answers are exactly the three obligation variants, canonical first |
| Scheduler.NextStage | src/core/index.js:794-798 | the next stage is one step further along the stage order, stopping at RETIRED, and never LEARNING |
| Scheduler.CreateCard | src/core/index.js:716-732 | a new card keeps the card invariant, is due at once, has made no progress and has zero counters |
| Scheduler.HalvedInterval | src/core/index.js:817-818 | a hinted interval is at least one day and is half the stage interval, rounded down |
| Scheduler.ApplyReviewAsWritten | src/core/index.js:800-876 | the review as written keeps the card's identity, records the review time and hint, adds one success or one failure, and sets the sticky leech flag exactly when a wrong answer brings the failures to four |
| Scheduler.ApplyReview | src/core/index.js:800-876 | counters count answers; the leech flag is set exactly at the fourth failure and is sticky; the card invariant is kept; a clean correct answer climbs one rung; a hinted one keeps the stage; a wrong one never climbs or retires; only learning cards requeue; due dates stay within 60 days |
| Scheduler.DueBeforeIsTotal | src/core/index.js:746-748 | ordering cards by due time is a total preorder |
| Scheduler.DailyReviewQueue | src/core/index.js:740-749 | the daily queue is a permutation of exactly the due cards, earliest first |
| Scheduler.WeaknessBeforeIsTotal | src/core/index.js:779-789 | the weakness comparator (leech, failures, accuracy) is a total preorder |
| Scheduler.RankByWeakness | src/core/index.js:770-789 | the ranking is a permutation of the cards with a failure, weakest first |
| Scheduler.WeaknessQueue | src/core/index.js:770-792 | the weakness queue is a prefix of that ranking, sorted weakest first; a non-negative count keeps the first min(count, ranked) cards, and a negative one drops that many from the end, as `slice(0, count)` does |
| Scheduler.EligibleIds | src/core/index.js:879-881 | the eligible ids are exactly the active templates other than the dictionary form |
| Scheduler.NormalizeEnabledForms | src/core/index.js:878-890 | no setting enables every eligible form; otherwise the kept ids are exactly the eligible ones among the setting, in the setting's order and with the setting's repeats, and none are added |
| SchedulerLaws.CorrectWithoutHint | src/core/index.js:823-848 | the learning steps requeue after 8 then 18 positions; step 2 promotes to S1 due in one day; S1–S5 promote with the new stage's interval; S6 retires with no due date |
| SchedulerLaws.CorrectWithHint | src/core/index.js:812-821 | a hinted correct answer never moves the stage: a learning card requeues now, and a numbered stage waits half its interval |
| SchedulerLaws.Incorrect | src/core/index.js:853-875 | a wrong answer moves S_n to S_max(1, n−2) due in a day; a learning or retired card restarts learning due in a day and requeues after 8 |
| SchedulerLaws.HintIgnoredWhenWrong | src/core/index.js:810-853 | the hint flag changes nothing about a wrong answer except the recorded flag |
| SchedulerLaws.CountersTrack | src/core/index.js:811-853 | over any run of reviews the success and failure counters grow by exactly the number of correct and wrong answers |
| SchedulerLaws.LeechExactly | src/core/index.js:853-856 | after any run a card is a leech exactly when it was one already or a wrong answer took its failures to four |
| SchedulerLaws.ValidThroughout | src/core/index.js:800-876 | under the corrected review, no due date exactly when retired holds through any run of reviews |
| SchedulerLaws.CleanRunProgress | src/core/index.js:823-848 | each clean correct answer climbs exactly one rung until retirement |
| SchedulerLaws.FreshCardLadder | src/core/index.js:823-834 | a new card reaches S1 after exactly three clean answers and retires after nine, not before |
| SchedulerLaws.RetiredHintAsWritten | src/core/index.js:812-821 | as written, a hinted correct answer on a retired card gives it a due date while it stays retired |
| SchedulerLaws.RetiredStaysDueAsWritten | src/core/index.js:842-850 | as written, such a card stays retired with its due date through clean answers, so it stays due in every later queue |
| SchedulerLaws.ApplyReviewAgrees | src/core/index.js:800-876 | the corrected review agrees with the source everywhere except on hinted correct answers to retired cards |
| SchedulerLaws.RetiredNeverQueued | src/core/index.js:740-749 | with the correction, a retired card that keeps the invariant is never in a daily queue |
| SchedulerLaws.DueStaysDue | src/core/index.js:734-738 | a card due now stays due at every later time, and a card without a due date is never due |
| SchedulerLaws.PromotedDueAfterInterval | src/core/index.js:734-848 | after a clean correct answer on S1–S5, the card is due exactly from the next stage's interval on |
| SchedulerLaws.WeaknessQueueLaw | src/core/index.js:770-792 | every card in the weakness queue ranks no later than every failed card left out, and a count at least the number of failed cards keeps them all |
| SchedulerLaws.EligibleOrder | src/core/index.js:879-881 | the eligible ids keep the template list's order: a front part of the list contributes its ids before the rest, and one template contributes its id exactly when active and not the dictionary form |
| SchedulerLaws.NormalizeIdempotent | src/core/index.js:878-890 | normalising the enabled forms twice gives the same list as once |
| Random.Next | src/core/lesson_engine.js:273-276 | a draw consumes exactly one value of a non-empty stream, the one at its head, and leaves the rest in order; an exhausted stream reads 0 and stays empty |
| Random.RandomIndex | src/core/lesson_engine.js:273-277 | a random index lies below max and uses one draw; max ≤ 1 answers 0 without drawing |
| Random.Swap | src/core/lesson_engine.js:283-285 | a swap exchanges two positions, leaves the rest alone and keeps the multiset |
| Random.ShuffleFrom | src/core/lesson_engine.js:281-286 | the Fisher–Yates loop is a permutation |
| Random.Shuffle | src/core/lesson_engine.js:279-288 | the shuffle is a permutation of its input |
| Random.ShuffleMembers | src/core/lesson_engine.js:279-288 | the shuffle keeps exactly the input's members |
| Random.RequeueInsertIndex | src/core/index.js:948-954 | a missed card goes back between position 1 and the queue's length, never at the front; an empty queue gives 0 |
| Random.RequeueMonotone | src/core/index.js:948-954 | a larger draw never moves the insertion point earlier |
| Curriculum.NormalizePathState | src/core/lesson_engine.js:36-69 | missing or negative counters (stage index, failed gates, lesson sessions, last いく session) become 0, a missing start time becomes now, and every valid stored field is kept |
| Curriculum.DaysInStage | src/core/lesson_engine.js:18-24 | days in stage is the count of started 24-hour days, at least 1, and 1 for a start in the future |
| Curriculum.ClampedStageIndex | src/core/lesson_engine.js:82 | the stage index is clamped into range: kept if valid, else the last stage |
| Curriculum.CurrentStage | src/core/lesson_engine.js:72-76 | there is no stage exactly when the path has none; otherwise it is the clamped stage |
| Curriculum.UnlockedTemplateIds | src/core/lesson_engine.js:79-92 | the unlocked templates are exactly those of stages up to the current one, each once |
| Curriculum.UnlockedOrder | src/core/lesson_engine.js:79-92 | the unlocked templates come in the order of their first appearance in the stages |
| Curriculum.RecentTemplateIds | src/core/lesson_engine.js:94-107 | the recent templates are exactly those of the last `window` stages up to the current one, each once |
| Curriculum.RecentOrder | src/core/lesson_engine.js:94-107 | the recent templates come in the order of their first appearance in those stages |
| Curriculum.MergeThresholds | src/core/lesson_engine.js:113-116 | the merged class thresholds have both sides' keys, and the override wins on shared keys |
| Curriculum.MergeGates | src/core/lesson_engine.js:109-118 | each of the seven gate settings the band sets overrides the base and every one it leaves unset keeps the base; the class thresholds have both sides' keys, the band's value winning and the base's kept otherwise |
| Curriculum.FirstBand | src/core/lesson_engine.js:125-134 | the chosen band is the first that contains the stage number, and none means no band contains it |
| Curriculum.ResolveGateProfile | src/core/lesson_engine.js:120-152 | the profile is the base gates when no band matches, else the base merged with the first matching band |
| Curriculum.EffectiveMinAccuracy | src/core/lesson_engine.js:452-454 | relaxed mode lowers the accuracy bar, never below 0 or above the normal bar |
| Curriculum.Tallies | src/core/lesson_engine.js:428-448 | per-class totals never exceed the overall totals, and nothing counted means zero |
| Curriculum.ClassReasons | src/core/lesson_engine.js:468-479 | a class-accuracy reason appears exactly for each threshold whose class has no answers or falls short |
| Curriculum.GateReasons | src/core/lesson_engine.js:456-479 | each fixed reason appears exactly when its condition holds, class reasons exactly for failing thresholds, in the source's order |
| Curriculum.Pass | src/core/lesson_engine.js:483-535 | a pass clears the failure count, hold, stabilisation and relaxed mode, and advances exactly when the stage is not the last |
| Curriculum.Fail | src/core/lesson_engine.js:537-559 | a fail keeps the stage, counts the failure and sets the hold only with enough answers, and starts stabilisation exactly on an unrelaxed stall |
| Curriculum.EvaluatePathAdvance | src/core/lesson_engine.js:367-576 | with no stages the path completes; the gate passes exactly when no reason fails; advancing implies a pass; a failed gate neither completes nor moves the stage |
| CurriculumLaws.NormalizeStoreRoundTrip | src/core/lesson_engine.js:36-69 | storing a normalised path state and normalising it again gives the same state |
| CurriculumLaws.NormalizeIdempotent | src/core/lesson_engine.js:36-69 | normalisation is idempotent, whatever the later clock |
| CurriculumLaws.UnlockedGrows | src/core/lesson_engine.js:79-92 | moving to a later stage only appends to the unlocked list, keeping every earlier id in place, and unlocks all of the reached stage's ids |
| CurriculumLaws.StageIdsPrefix | src/core/lesson_engine.js:79-92 | the ids of the first stages are a prefix of the ids of more stages |
| CurriculumLaws.UnlockedSingleStage | src/core/lesson_engine.js:79-92 | a single stage without repeated ids unlocks exactly its ids, in its own order |
| CurriculumLaws.RecentWithinUnlocked | src/core/lesson_engine.js:94-107 | recent templates are unlocked, and a window covering every stage gives exactly the unlocked list |
| CurriculumLaws.CurrentStageUnlocked | src/core/lesson_engine.js:72-107 | the current stage's templates are unlocked and recent |
| CurriculumLaws.HoldBlocks | src/core/lesson_engine.js:409-426 | an active hold fails the gate with the single hold reason and changes no counter |
| CurriculumLaws.StabilizationExpires | src/core/lesson_engine.js:398-407 | an expired stabilisation is cleared, and a failed gate then leaves relaxed mode on |
| CurriculumLaws.GateVerdict | src/core/lesson_engine.js:450-479 | without a hold, the failed reasons are exactly the gate's reasons for the stage's tallies and days |
| CurriculumLaws.PassLaw | src/core/lesson_engine.js:481-535 | a passed gate resets the failure state, advances unless at the last stage, and otherwise completes the path there |
| CurriculumLaws.FailLaw | src/core/lesson_engine.js:537-559 | a failed gate keeps the stage, counts only gates with enough answers, sets a hold only then, and starts stabilisation only on an unrelaxed stall |
| Composition.ClampBelow | src/core/lesson_engine.js:158-160 | clamping below keeps the keys and raises every count to at least 0 |
| Composition.TrimPass | src/core/lesson_engine.js:162-172 | one trimming pass never cuts below a floor or below the budget, and makes progress whenever some count is above its floor |
| Composition.StuckPass | src/core/lesson_engine.js:173-182 | when no count is above its floor, the draining pass makes progress unless everything is spent |
| Composition.TrimRound | src/core/lesson_engine.js:162-182 | a round strictly shrinks the total unless all is spent, stays at or above the budget, and respects affordable floors |
| Composition.TrimLoop | src/core/lesson_engine.js:162-183 | the loop ends with the total equal to the budget (or unchanged when already within it), and no count grows |
| Composition.TrimLoopKeepsFloors | src/core/lesson_engine.js:164-172 | when the floors fit in the budget, no count ends below its floor |
| Composition.ClampCounts | src/core/lesson_engine.js:154-185 | the clamped counts keep the keys, lie between 0 and the requested counts, total the budget or less, and keep affordable floors |
| Composition.ClampIdempotent | src/core/lesson_engine.js:154-185 | clamping already-clamped counts changes nothing, whatever the floors |
| Composition.ClampBelowFixes | src/core/lesson_engine.js:158-160 | non-negative counts are a fixed point of clamping below |
| Composition.DeriveGateBoost | src/core/lesson_engine.js:187-214 | the weakness boost counts the accuracy reasons, and each class gains 2 bias per reason naming it |
| Composition.DailyBudget | src/core/lesson_engine.js:220 | the daily budget is at least 1 and defaults to 10 |
| Composition.TierFor | src/core/lesson_engine.js:229-241 | mid-course exactly for a guided path past the threshold; otherwise intro, consolidation or maintenance by days in stage |
| Composition.BoostedWeakness | src/core/lesson_engine.js:243-254 | boosts never lower the weakness count |
| Composition.MinByKey | src/core/lesson_engine.js:256-260 | floors exist exactly on a narrow guided stage after day 2; there is one floor, of half the budget rounded up, on Recent when the tier counts Recent and else on Previous, never on Current or Weakness; the floors never exceed the budget |
| Composition.CompositionWindow | src/core/lesson_engine.js:216-271 | the window's counts are the tier's counts with the boosted weakness, clamped within the daily budget, and untouched when they already fit |
| Composition.CompositionFloor | src/core/lesson_engine.js:256-262 | on a narrow guided stage after day 2, the window keeps Recent (or Previous) at half the budget rounded up, or at the requested count if that is smaller |
| Composition.NarrowFloorHolds | src/core/lesson_engine.js:256-262 | clamping with those floors keeps the floored bucket at its floor or its request |
| Weakness.CardTotals | src/core/lesson_engine.js:311-322 | a template with no card has zero totals |
| Weakness.MetricOf | src/core/lesson_engine.js:311-331 | attempts are successes plus failures, logged mistakes count as failures, and an unseen template has an empty metric |
| Weakness.Score | src/core/lesson_engine.js:333-339 | the score is at least the failure count, and equals it at full accuracy |
| Weakness.RanksBeforeIsTotal | src/core/lesson_engine.js:340 | the ranking comparator (score, failures, id) is a total preorder |
| Weakness.Candidates | src/core/lesson_engine.js:306-331 | the candidates are exactly the allowed templates with a metric, each once |
| Weakness.Ranked | src/core/lesson_engine.js:333-340 | the ranking orders all candidates best first, each once |
| Weakness.SelectWeaknessTemplates | src/core/lesson_engine.js:305-344 | the choice is the limit-many best candidates, best first, and every left-out candidate ranks below every chosen one |
| Weakness.IdOrderAntisymmetric | src/core/lesson_engine.js:340 | the final tie-break on ids leaves no two templates tied |
| Weakness.SelectionIgnoresOrder | src/core/lesson_engine.js:333-343 | the selection depends only on which templates are allowed, not on their order |
| Weakness.PairAdditions | src/core/lesson_engine.js:354-362 | a template is added exactly when some two-element pair pulls it in |
| Weakness.ConfusablePairBoost | src/core/lesson_engine.js:346-365 | the result starts with the base ids, has no duplicates, and adds exactly the allowed partners of often-missed templates |
| Picking.ExtendsDistinct | src/core/lesson_engine.js:587-589 | picking never queues a pair twice |
| Picking.ExtendsMembers | src/core/lesson_engine.js:582-590 | every item a pick appends comes from the pool it picked from |
| Picking.PickLoop | src/core/lesson_engine.js:582-592 | the loop appends at most budget admissible pool items, and stops empty-handed only when none is admissible |
| Picking.PickFromPool | src/core/lesson_engine.js:579-594 | the pick appends at most count admissible pool items, and picks nothing only when none is admissible |
| Picking.RawShares | src/core/lesson_engine.js:614-619 | the raw class shares sum to the count |
| Picking.SharesOf | src/core/lesson_engine.js:614-619 | the shares sum to the count, and each is the count weighted by its class |
| Picking.LargestRemainder | src/core/lesson_engine.js:620-632 | the rounded targets sum to the count, and each is its share's floor or one more |
| Picking.PositionOrder | src/core/lesson_engine.js:626-628 | a larger fractional part comes earlier in the remainder order |
| Picking.LargestRemainderAt | src/core/lesson_engine.js:620-632 | a class's target is its floor plus one exactly when it is among the first remainder-many |
| Picking.LargerFractionFirst | src/core/lesson_engine.js:626-632 | a class with a smaller fractional part is not rounded up unless the larger one is too |
| Picking.BuildClassTargets | src/core/lesson_engine.js:602-634 | the class targets are non-negative and sum to the count, or are all zero for a non-positive count |
| Picking.TargetsNearShares | src/core/lesson_engine.js:602-634 | each class target is within one of its weighted share |
| Picking.TargetsLargestRemainder | src/core/lesson_engine.js:625-632 | the targets follow the largest-remainder rule |
| Picking.ClassPool | src/core/lesson_engine.js:639-643 | a class pool holds only pool items of that verb class |
| Picking.PickClass | src/core/lesson_engine.js:647-651 | a class pick appends at most the class target from the pool |
| Picking.TopUp | src/core/lesson_engine.js:653-656 | the top-up fills only up to the wanted number and leaves a full pick alone |
| Picking.PickClasses | src/core/lesson_engine.js:647-651 | the three class picks together append at most the targets' sum |
| Picking.PickWithClassTargets | src/core/lesson_engine.js:636-658 | the targeted pick appends at most count distinct admissible pool items |
| Picking.MoreBiasIsTotal | src/core/lesson_engine.js:671 | ordering by bias amount is a total preorder |
| Picking.Positive | src/core/lesson_engine.js:665-670 | exactly the entries with a positive amount remain, in their order |
| Picking.BiasOrder | src/core/lesson_engine.js:665-671 | the bias order is a permutation of the positive entries among irregular, godan and ichidan, largest first, and is empty without bias |
| Picking.BiasLoop | src/core/lesson_engine.js:673-684 | the biased class picks never exceed the wanted number |
| Picking.PickWithClassBias | src/core/lesson_engine.js:660-691 | the biased pick appends at most count distinct admissible pool items |
| Picking.NoBiasIsPlainPick | src/core/lesson_engine.js:660-691 | without positive bias, the biased pick is the plain pick |
| Irregular.SelectCandidate | src/core/lesson_engine.js:725-739 | a candidate exists exactly when some pool item is selectable; the one chosen is selectable; a preferred template is chosen whenever one is selectable |
| Irregular.FirstWithRank | src/core/lesson_engine.js:742-749 | the search finds the first non-irregular item from the given source, and none earlier |
| Irregular.ReplacePasses | src/core/lesson_engine.js:742-751 | the passes find the non-irregular item least in (source order, position) |
| Irregular.FindReplaceIndex | src/core/lesson_engine.js:741-752 | no index exactly when every item is irregular; otherwise the first non-irregular item of the earliest source in fallback, previous, recent, weakness, current order |
| Irregular.CountIrregular | src/core/lesson_engine.js:774-776 | the irregular count never exceeds the queue length |
| Irregular.CountReplace | src/core/lesson_engine.js:770 | replacing an item changes the irregular count by exactly the difference of the two items |
| Irregular.ReplaceAt | src/core/lesson_engine.js:768-771 | replacing a non-irregular item queues the card, keeps the length and every irregular item, and keeps pairs distinct |
| Irregular.Append | src/core/lesson_engine.js:764-767 | appending queues the card and raises the irregular count by the card's own |
| Irregular.EnsureCardInQueue | src/core/lesson_engine.js:754-772 | no card is false; an already queued card is true with no change; room means append; a full queue replaces a non-irregular item; it fails only on a full all-irregular queue; the irregular count never drops and pairs stay distinct |
| Irregular.IrregularPool | src/core/lesson_engine.js:797-800 | the quota pool is exactly the unseen unlocked pairs of irregular verbs, tagged as quota |
| Irregular.IkuPool | src/core/lesson_engine.js:842-845 | the いく pool is exactly the unseen unlocked pairs of verbs spelled いく |
| Irregular.PolicyDaily | src/core/lesson_engine.js:781 | the policy's budget is at least 1 and is the daily count when one is set |
| Irregular.EnsureGrows | src/core/lesson_engine.js:754-772 | placing a pool card keeps the queue's growth invariant |
| Irregular.PrimaryLoop | src/core/lesson_engine.js:806-819 | the primary-kana pass only adds pool items, keeps irregular items, never drops the count and stays within budget |
| Irregular.FillLoop | src/core/lesson_engine.js:820-826 | the fill loop keeps that invariant and stops only at the minimum, with the pool used up, or on a full all-irregular queue |
| Irregular.QuotaPhase | src/core/lesson_engine.js:804-827 | with a pool and a positive minimum the quota is met as far as the pool and budget allow; otherwise nothing changes |
| Irregular.KanaPoolHasKana | src/core/lesson_engine.js:840-841 | a selectable いく-pool item means some verb is spelled いく |
| Irregular.IkuStep | src/core/lesson_engine.js:829-858 | いく is injected exactly when due, a candidate exists and there is room or something to replace; an injected item is new and from the いく pool |
| Irregular.ApplyPolicy | src/core/lesson_engine.js:797-858 | the policy only adds quota items, keeps the quota saturated, and injects いく only when due |
| Irregular.EnforceIrregularPolicy | src/core/lesson_engine.js:778-865 | the session count goes up by one; the last いく session is recorded exactly on injection; a missing or disabled policy changes nothing; an enabled one meets the quota as far as possible |
| Lesson.IntroTemplates | src/core/lesson_engine.js:704-706 | the intro templates are exactly the override's intro ids that belong to the stage |
| Lesson.StageCurrentTemplateIds | src/core/lesson_engine.js:693-712 | the active templates are the stage's own; they differ from the full list exactly while an intro subphase is running |
| Lesson.Lists | src/core/lesson_engine.js:886-899 | deferred = current minus active; effective = unlocked minus deferred; previous = effective minus active; recent (corrected) = recent stages minus deferred, so it lies in effective |
| Lesson.StageTemplatesUnlocked | src/core/lesson_engine.js:889-891 | the current stage's templates are unlocked |
| Lesson.RecentAsWritten | src/core/lesson_engine.js:899 | the recent list as written is unlocked, but need not be effective |
| Lesson.PreviousSource | src/core/lesson_engine.js:925-928 | the previous bucket draws from effective templates: the recent list mid-course, else the previous list |
| Lesson.PoolOf | src/core/lesson_engine.js:932-943 | a pool is exactly the unseen pairs of the listed templates, tagged with the bucket |
| Lesson.BuildPools | src/core/lesson_engine.js:932-943 | the four pools hold exactly the unseen pairs of their template lists, and every item is honest: unseen, effective, and labelled with its bucket |
| Lesson.PickBuckets | src/core/lesson_engine.js:945-983 | the bucket picks append distinct pool items, at most the counts' total |
| Lesson.FillQueue | src/core/lesson_engine.js:945-987 | the filled queue holds distinct pool items, at most the daily budget |
| Lesson.MakePlan | src/core/lesson_engine.js:886-943 | the plan's counts are non-negative and within budget, and every pool item is honest |
| Lesson.Draft | src/core/lesson_engine.js:886-987 | the draft queue is within budget, has no repeated pair, and every item is honest |
| Lesson.QuotaItemsHonest | src/core/lesson_engine.js:989-1000 | items the irregular policy adds are honest too |
| Lesson.Finish | src/core/lesson_engine.js:989-1004 | after the policy and the cut, the queue stays within budget, distinct and honest, and the session is counted |
| Lesson.BuildLessonQueue | src/core/lesson_engine.js:876-1020 | the lesson fits the daily budget, repeats no pair, offers only honest items, and counts the session; it is built on the corrected `Lists`, whose recent list leaves out deferred templates (unlike lesson_engine.js:899 and 925-928) |
| Lesson.LessonTemplatesUnlocked | src/core/lesson_engine.js:876-1003 | every lesson item is an unseen pair of an unlocked template that is not deferred |
| Lesson.PreviousSourceAsWritten | src/core/lesson_engine.js:925-928 | as written, the previous bucket's source is unlocked but may include deferred templates |
| Lesson.DeferredLeaksAsWritten | src/core/lesson_engine.js:892-928 | mid-course on day 1 of a stage whose intro defers "b", the source still offers "b" in the recent bucket |

## Left out

- Calendar time: instants are integer milliseconds and a day is 24 hours. Local-calendar `setDate`, daylight saving and ISO parsing are not modelled. Invalid timestamps are unrepresentable.
- Dynamic typing: `NaN`, `Number(...)` coercion and non-array or non-object inputs are not modelled. Optional settings are `Option` values, and `x || d` treats `Some(0)` like a missing value (`OrElse`).
- Floating point: shares, weights, accuracies and scores are exact reals, so rounding of `0.6 + 0.08·k` is not modelled.
- Randomness: `rng()` is a finite sequence of draws in [0, 1) that reads 0 once exhausted. The `Math.random()` fallback is not modelled.
- `buildFocusedDrillQueue`: it shuffles with a random comparator, which has no deterministic model.
- `romajiToKana`, `toHiragana`, `normalizeAnswer` and the rest of src/core/index.js outside the engines above: answer parsing and persistence are not part of the core modelled here.
- Output-only fields: `summarizeBucketCounts` and the lesson's `details` record, the gate's `profile`, `class_accuracy` and `accuracy` fields, and the band id, label and range.
- Object key order: template ids and class thresholds are lists in the order given. `localeCompare` is code-unit order (`LexLe`). Verb classes are compared as already lower-cased strings.
- Counts: they hold only the four bucket keys. Extra keys in a configured count object are not modelled.
- Picking.PickWithClassTargets: states the budget and that items are distinct and admissible, but not that each class meets its target. Those depend on the shuffled draws.
- Picking.PickWithClassBias: states the same bounds, not the per-class amounts.
- Irregular.SelectCandidate: states which items can be chosen and that preferred ones win, not which one the shuffle picks.
- Curriculum.Tallies: bounds the per-class totals by the overall totals instead of stating each sum exactly.
- Lesson.BuildLessonQueue: states budget, distinctness and honesty of the items, not how many each bucket contributes.
- Irregular.EnforceIrregularPolicy: states the quota as a disjunction (met, pool used up, or a full queue with nothing replaceable), not the number of items added.

## Findings

| source | as written | input that shows it | evidently intended | confidence | as-written member | corrected member |
|---|---|---|---|---|---|---|
| src/core/index.js:469-470 | a godan ending missing from the row tables is looked up as `undefined` and spliced into the word | godan verb "かえ", plain negative: "かundefinedない" | reject the unsupported ending, as the sound-change templates do | medium, not executed | ConjugationLaws.UndefinedRowCounterexample | Conjugation.RowForm |
| src/core/index.js:812-821 | a hinted correct answer on a RETIRED card sets a due date one day out while the card stays retired | a retired card (reachable through a drill queue) answered correctly with a hint | a retired card keeps no due date and never re-enters the review queue | medium, not executed | SchedulerLaws.RetiredHintAsWritten | SchedulerLaws.RetiredNeverQueued |
| src/core/lesson_engine.js:925-928 | mid-course, the previous bucket draws from all recent templates, including the current stage's deferred ones | stage s1 with templates a, b; intro override [a] until day 3; `mid_course_unlocked_forms` 1; day 1: b is offered as "recent" | deferred templates excluded, as `effectiveUnlockedTemplateIds` excludes them | medium, not executed | Lesson.DeferredLeaksAsWritten | Lesson.LessonTemplatesUnlocked |
