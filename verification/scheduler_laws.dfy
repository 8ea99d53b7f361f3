/**
 Laws of the review state machine: the per-branch outcomes of a single
 review, and what a run of reviews does to the counters, the leech flag,
 the card invariant and the position on the stage ladder.
 */
module SchedulerLaws {
  import opened Common
  import opened Scheduler

  // ---------------------------------------------------------------------
  // One review

  /** A correct answer without a hint: learning steps, promotion, retirement. */
  lemma CorrectWithoutHint(card: Card, now: Time)
    ensures var r := ApplyReview(card, now, true, false);
      && (card.stage == Learning(0) ==> r.card.stage == Learning(1) && r.card.due == Some(now) && r.requeueAfter == 8)
      && (card.stage == Learning(1) ==> r.card.stage == Learning(2) && r.card.due == Some(now) && r.requeueAfter == 18)
      && (card.stage == Learning(2) ==> r.card.stage == S(1) && r.card.due == Some(AddDays(now, 1)) && r.requeueAfter == 0)
      && (card.stage == S(1) ==> r.card.stage == S(2) && r.card.due == Some(AddDays(now, 3)) && r.requeueAfter == 0)
      && (card.stage == S(2) ==> r.card.stage == S(3) && r.card.due == Some(AddDays(now, 7)) && r.requeueAfter == 0)
      && (card.stage == S(3) ==> r.card.stage == S(4) && r.card.due == Some(AddDays(now, 14)) && r.requeueAfter == 0)
      && (card.stage == S(4) ==> r.card.stage == S(5) && r.card.due == Some(AddDays(now, 30)) && r.requeueAfter == 0)
      && (card.stage == S(5) ==> r.card.stage == S(6) && r.card.due == Some(AddDays(now, 60)) && r.requeueAfter == 0)
      && (card.stage == S(6) ==> r.card.stage == Retired && r.card.due == None && r.requeueAfter == 0)
      && (card.stage == Retired ==>
            r.card == card.(lastReviewed := Some(now), hintUsedLast := false, successes := card.successes + 1)
            && r.requeueAfter == 0)
  {
  }

  /** A correct answer with a hint never moves the stage; a numbered stage waits half its interval. */
  lemma CorrectWithHint(card: Card, now: Time)
    ensures var r := ApplyReview(card, now, true, true);
      && r.card.stage == card.stage
      && (card.stage.Learning? ==> r.card.due == Some(now) && r.requeueAfter == 8)
      && (card.stage.S? ==>
            r.card.due == Some(AddDays(now, Max(1, IntervalDays(card.stage.level) / 2))) && r.requeueAfter == 0)
      && (card.stage == S(4) ==> r.card.due == Some(AddDays(now, 7)))
      && (card.stage.Retired? ==> r.card.due == card.due && r.requeueAfter == 0)
  {
  }

  /** A wrong answer: S_n drops to S_max(1, n-2) for a day; anything else restarts learning. */
  lemma Incorrect(card: Card, now: Time)
    ensures var r := ApplyReview(card, now, false, false);
      && r.card.failures == card.failures + 1
      && r.card.successes == card.successes
      && (card.stage.S? ==>
            r.card.stage == S(Max(1, card.stage.level - 2)) && r.card.due == Some(AddDays(now, 1)) && r.requeueAfter == 0)
      && (card.stage == S(4) ==> r.card.stage == S(2))
      && (card.stage == S(1) ==> r.card.stage == S(1))
      && (!card.stage.S? ==>
            r.card.stage == Learning(0) && r.card.due == Some(AddDays(now, 1)) && r.requeueAfter == 8)
  {
  }

  /** The hint flag matters only for a correct answer. */
  lemma HintIgnoredWhenWrong(card: Card, now: Time)
    ensures ApplyReview(card, now, false, true).card == ApplyReview(card, now, false, false).card.(hintUsedLast := true)
    ensures ApplyReview(card, now, false, true).requeueAfter == ApplyReview(card, now, false, false).requeueAfter
  {
  }

  // ---------------------------------------------------------------------
  // A run of reviews

  datatype Review = Review(at: Time, correct: bool, hintUsed: bool)

  /** The card after each review of the run in turn. */
  function ReviewAll(card: Card, reviews: seq<Review>): Card
    decreases |reviews|
  {
    if |reviews| == 0 then card
    else
      var r := reviews[0];
      ReviewAll(ApplyReview(card, r.at, r.correct, r.hintUsed).card, reviews[1..])
  }

  function CountCorrect(reviews: seq<Review>): nat
    decreases |reviews|
  {
    if |reviews| == 0 then 0 else (if reviews[0].correct then 1 else 0) + CountCorrect(reviews[1..])
  }

  function CountIncorrect(reviews: seq<Review>): (n: nat)
    ensures n + CountCorrect(reviews) == |reviews|
    decreases |reviews|
  {
    if |reviews| == 0 then 0 else (if reviews[0].correct then 0 else 1) + CountIncorrect(reviews[1..])
  }

  /** The counters count the answers: they only grow, each by its own kind of answer. */
  lemma {:induction false} CountersTrack(card: Card, reviews: seq<Review>)
    ensures ReviewAll(card, reviews).successes == card.successes + CountCorrect(reviews)
    ensures ReviewAll(card, reviews).failures == card.failures + CountIncorrect(reviews)
    ensures ReviewAll(card, reviews).verbId == card.verbId && ReviewAll(card, reviews).templateId == card.templateId
    decreases |reviews|
  {
    if |reviews| > 0 {
      var r := reviews[0];
      CountersTrack(ApplyReview(card, r.at, r.correct, r.hintUsed).card, reviews[1..]);
    }
  }

  /**
   The leech flag is sticky, and a run leaves a card a leech exactly when
   it was one or the run had a wrong answer taking the total to four.
   */
  lemma {:induction false} LeechExactly(card: Card, reviews: seq<Review>)
    ensures ReviewAll(card, reviews).isLeech <==>
      card.isLeech || (CountIncorrect(reviews) > 0 && card.failures + CountIncorrect(reviews) >= LeechThreshold)
    decreases |reviews|
  {
    if |reviews| > 0 {
      var r := reviews[0];
      var next := ApplyReview(card, r.at, r.correct, r.hintUsed).card;
      LeechExactly(next, reviews[1..]);
    }
  }

  /** Every review keeps the invariant that only a retired card lacks a due time. */
  lemma {:induction false} ValidThroughout(card: Card, reviews: seq<Review>)
    requires ValidCard(card)
    ensures ValidCard(ReviewAll(card, reviews))
    decreases |reviews|
  {
    if |reviews| > 0 {
      var r := reviews[0];
      ValidThroughout(ApplyReview(card, r.at, r.correct, r.hintUsed).card, reviews[1..]);
    }
  }

  predicate CleanRun(reviews: seq<Review>)
  {
    forall i :: 0 <= i < |reviews| ==> reviews[i].correct && !reviews[i].hintUsed
  }

  /** Each clean correct answer moves the card one rung up the ladder, until it retires. */
  lemma {:induction false} CleanRunProgress(card: Card, reviews: seq<Review>)
    requires CleanRun(reviews)
    ensures Progress(ReviewAll(card, reviews).stage) == Min(Progress(card.stage) + |reviews|, 9)
    decreases |reviews|
  {
    if |reviews| > 0 {
      var r := reviews[0];
      assert r.correct && !r.hintUsed;
      assert CleanRun(reviews[1..]) by {
        forall i | 0 <= i < |reviews[1..]| ensures reviews[1..][i].correct && !reviews[1..][i].hintUsed {
          assert reviews[1..][i] == reviews[i + 1];
        }
      }
      CleanRunProgress(ApplyReview(card, r.at, r.correct, r.hintUsed).card, reviews[1..]);
    }
  }

  lemma StageOfProgress(stage: Stage)
    ensures Progress(stage) == 3 <==> stage == S(1)
    ensures Progress(stage) == 9 <==> stage == Retired
  {
  }

  /** A new card reaches S1 after three clean answers and retires after nine. */
  lemma FreshCardLadder(verbId: string, templateId: string, created: Time, reviews: seq<Review>)
    requires CleanRun(reviews)
    ensures |reviews| == 3 ==> ReviewAll(CreateCard(verbId, templateId, created), reviews).stage == S(1)
    ensures |reviews| >= 9 ==> ReviewAll(CreateCard(verbId, templateId, created), reviews).stage == Retired
    ensures |reviews| < 9 ==> !ReviewAll(CreateCard(verbId, templateId, created), reviews).stage.Retired?
  {
    var newCard := CreateCard(verbId, templateId, created);
    CleanRunProgress(newCard, reviews);
    StageOfProgress(ReviewAll(newCard, reviews).stage);
  }

  // ---------------------------------------------------------------------
  // The retired-and-hinted branch

  /**
   As written, a retired card answered correctly with a hint is given a
   due time one day out while staying retired, breaking the card invariant.
   */
  lemma RetiredHintAsWritten(card: Card, now: Time)
    requires card.stage == Retired && ValidCard(card)
    ensures var r := ApplyReviewAsWritten(card, now, true, true);
      r.card.stage == Retired && r.card.due == Some(AddDays(now, 1)) && !ValidCard(r.card)
  {
  }

  /**
   From then on, as written, clean answers keep it retired with that due
   time, so it is due in every later daily queue.
   */
  lemma RetiredStaysDueAsWritten(card: Card, now: Time, later: Time)
    requires card.stage == Retired && card.due.Some? && card.due.value <= later
    ensures var r := ApplyReviewAsWritten(card, now, true, false);
      r.card.stage == Retired && r.card.due == card.due && IsDue(r.card, later)
  {
  }

  /** The corrected review differs from the source only in that branch. */
  lemma ApplyReviewAgrees(card: Card, now: Time, correct: bool, hintUsed: bool)
    requires !(card.stage.Retired? && correct && hintUsed)
    ensures ApplyReview(card, now, correct, hintUsed) == ApplyReviewAsWritten(card, now, correct, hintUsed)
  {
  }

  /** With the correction, no retired card that keeps the invariant is ever in the daily queue. */
  lemma RetiredNeverQueued(cards: seq<Card>, now: Time, card: Card)
    requires card.stage.Retired? && ValidCard(card)
    ensures card !in DailyReviewQueue(cards, now)
  {
  }

  // ---------------------------------------------------------------------
  // Due times and queues

  /** A card that is due stays due as time passes; a card without a due time never is. */
  lemma DueStaysDue(card: Card, now: Time, later: Time)
    requires now <= later
    ensures IsDue(card, now) ==> IsDue(card, later)
    ensures card.due.None? ==> !IsDue(card, later)
  {
  }

  /**
   A card promoted from S_n by a clean answer comes due exactly when the
   new stage's interval has passed, and not a moment before.
   */
  lemma PromotedDueAfterInterval(card: Card, now: Time, t: Time)
    requires card.stage.S? && card.stage.level < 6
    ensures var r := ApplyReview(card, now, true, false);
      IsDue(r.card, t) <==> t >= AddDays(now, IntervalDays(card.stage.level + 1))
  {
    var r := ApplyReview(card, now, true, false);
    assert r.card.due == Some(AddDays(now, IntervalDays(card.stage.level + 1)));
  }

  /**
   The weakness queue holds the weakest cards: everything the cut leaves
   out ranks after everything it keeps, and a count covering every failed
   card keeps them all.
   */
  lemma WeaknessQueueLaw(cards: seq<Card>, count: int)
    ensures var r := WeaknessQueue(cards, count);
      var ranked := RankByWeakness(cards);
      && (forall i, j :: 0 <= i < |r| <= j < |ranked| ==> WeaknessBefore(r[i], ranked[j]))
      && (count >= |ranked| ==> forall c :: c in cards && c.failures > 0 ==> c in r)
  {
    var r := WeaknessQueue(cards, count);
    var ranked := RankByWeakness(cards);
    forall i, j | 0 <= i < |r| <= j < |ranked| ensures WeaknessBefore(r[i], ranked[j]) {
      assert r[i] == ranked[i];
    }
    if count >= |ranked| {
      assert r == ranked;
    }
  }

  // ---------------------------------------------------------------------
  // Enabled forms

  /**
   The eligible ids keep the template list's order: the ids from a front part
   of the list come before those from the rest, and one template contributes
   its own id exactly when it is active and not the dictionary form.
   */
  lemma {:induction false} EligibleOrder(a: seq<TemplateInfo>, b: seq<TemplateInfo>)
    ensures EligibleIds(a + b) == EligibleIds(a) + EligibleIds(b)
    ensures |a| == 1 ==> EligibleIds(a) == if a[0].active && a[0].id != DictionaryTemplateId then [a[0].id] else []
    decreases |a|
  {
    if |a| == 0 {
      assert a + b == b;
    } else {
      var t := a[0];
      var own: seq<string> := if t.active && t.id != DictionaryTemplateId then [t.id] else [];
      assert (a + b)[0] == t && (a + b)[1..] == a[1..] + b;
      assert EligibleIds(a + b) == own + EligibleIds(a[1..] + b);
      assert EligibleIds(a) == own + EligibleIds(a[1..]);
      EligibleOrder(a[1..], b);
      assert own + (EligibleIds(a[1..]) + EligibleIds(b)) == (own + EligibleIds(a[1..])) + EligibleIds(b);
    }
  }

  /** Normalising the enabled forms a second time changes nothing. */
  lemma NormalizeIdempotent(templates: seq<TemplateInfo>, enabled: Option<seq<string>>)
    ensures NormalizeEnabledForms(templates, Some(NormalizeEnabledForms(templates, enabled)))
         == NormalizeEnabledForms(templates, enabled)
  {
    var r := NormalizeEnabledForms(templates, enabled);
    var eligible := EligibleIds(templates);
    if |r| > 0 {
      FilterAll(r, (id: string) => id in eligible);
    }
  }
}
