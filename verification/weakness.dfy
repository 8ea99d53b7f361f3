/**
 Weakness-driven template choice for the lesson engine: the templates the
 learner misses most, ranked by a miss-and-accuracy score, and the
 confusable-pair boost that pulls a template's partner into the lesson
 once the learner keeps getting the template wrong.
 */
module Weakness {
  import opened Common
  import opened Sorting
  import opened Scheduler

  /** Running totals for one template, over its cards and its logged mistakes. */
  datatype Metric = Metric(templateId: string, success: int, failure: int, attempts: int)

  /** `Number(counts[t] || 0)`: a template's logged mistakes, 0 when none are logged. */
  function Mistakes(mistakes: map<string, int>, t: string): int
  {
    if t in mistakes then mistakes[t] else 0
  }

  /** Some card in the store belongs to template `t` (a card without a template counts for none). */
  predicate HasCard(cards: seq<Card>, t: string)
    decreases |cards|
  {
    |cards| > 0 && ((t != "" && cards[0].templateId == t) || HasCard(cards[1..], t))
  }

  /** The summed successes and failures of the template's cards. */
  function CardTotals(cards: seq<Card>, t: string): (r: (nat, nat))
    ensures !HasCard(cards, t) ==> r == (0, 0)
    decreases |cards|
  {
    if |cards| == 0 then (0, 0)
    else
      var rest := CardTotals(cards[1..], t);
      var c := cards[0];
      if t != "" && c.templateId == t then (rest.0 + c.successes, rest.1 + c.failures) else rest
  }

  /** A template is ranked when it has a card or a mistake entry. */
  predicate HasMetric(cards: seq<Card>, mistakes: map<string, int>, t: string)
  {
    HasCard(cards, t) || t in mistakes
  }

  /** A template's metric: card answers, with every logged mistake counted as one more failed attempt. */
  function MetricOf(cards: seq<Card>, mistakes: map<string, int>, t: string): (m: Metric)
    ensures m.templateId == t
    ensures m.attempts == m.success + m.failure
    ensures m.success >= 0 && m.failure >= Mistakes(mistakes, t)
    ensures !HasMetric(cards, mistakes, t) ==> m == Metric(t, 0, 0, 0)
  {
    var (s, f) := CardTotals(cards, t);
    var extra := Mistakes(mistakes, t);
    Metric(t, s, f + extra, s + f + extra)
  }

  /** Share of successful attempts; 1 when nothing was attempted. */
  function Accuracy(m: Metric): real
  {
    if m.attempts > 0 then m.success as real / m.attempts as real else 1.0
  }

  /** Misses plus ten times the shortfall of accuracy below 1. */
  function Score(m: Metric): (r: real)
    ensures r >= m.failure as real
    ensures Accuracy(m) >= 1.0 ==> r == m.failure as real
  {
    var shortfall := 1.0 - Accuracy(m);
    m.failure as real + (if shortfall > 0.0 then shortfall * 10.0 else 0.0)
  }

  /** The ranking comparator: higher score first, then more failures, then template id. */
  predicate RanksBefore(a: Metric, b: Metric)
  {
    if Score(a) != Score(b) then Score(a) > Score(b)
    else if a.failure != b.failure then a.failure > b.failure
    else LexLe(a.templateId, b.templateId)
  }

  lemma RanksBeforeIsTotal()
    ensures TotalPreorder(RanksBefore)
  {
    forall a: Metric, b: Metric ensures RanksBefore(a, b) || RanksBefore(b, a) {
      LexLeTotal(a.templateId, b.templateId);
    }
    forall a: Metric, b: Metric, c: Metric | RanksBefore(a, b) && RanksBefore(b, c) ensures RanksBefore(a, c) {
      if Score(a) == Score(b) == Score(c) && a.failure == b.failure == c.failure {
        LexLeTransitive(a.templateId, b.templateId, c.templateId);
      }
    }
  }

  /** Template ids compared by their metrics. */
  function IdOrder(cards: seq<Card>, mistakes: map<string, int>): (string, string) -> bool
  {
    By((t: string) => MetricOf(cards, mistakes, t), RanksBefore)
  }

  /** The allowed templates that have a metric, each once. */
  function Candidates(cards: seq<Card>, mistakes: map<string, int>, allowed: seq<string>): (r: seq<string>)
    ensures NoDuplicates(r)
    ensures forall t :: t in r <==> t in allowed && HasMetric(cards, mistakes, t)
  {
    Dedup(Filter(allowed, (t: string) => HasMetric(cards, mistakes, t)))
  }

  /** `Math.max(0, Math.floor(limit || 3))` */
  function WeaknessLimit(limit: Option<int>): nat
  {
    Max(0, OrElse(limit, 3))
  }

  /** Every allowed template with a metric that was left out ranks after every chosen one. */
  ghost predicate TopRanked(r: seq<string>, cards: seq<Card>, mistakes: map<string, int>, allowed: seq<string>)
  {
    forall u, t :: u in r && t in allowed && HasMetric(cards, mistakes, t) && t !in r ==>
      RanksBefore(MetricOf(cards, mistakes, u), MetricOf(cards, mistakes, t))
  }

  /** Every candidate, best first. */
  function Ranked(cards: seq<Card>, mistakes: map<string, int>, allowed: seq<string>): (r: seq<string>)
    ensures NoDuplicates(r)
    ensures forall t :: t in r <==> t in allowed && HasMetric(cards, mistakes, t)
    ensures |r| == |Candidates(cards, mistakes, allowed)|
    ensures SortedBy(r, IdOrder(cards, mistakes))
  {
    var candidates := Candidates(cards, mistakes, allowed);
    var le := IdOrder(cards, mistakes);
    RanksBeforeIsTotal();
    PullbackPreorder((t: string) => MetricOf(cards, mistakes, t), RanksBefore);
    SortSorted(candidates, le);
    PermutationKeepsDistinct(candidates, Sort(candidates, le));
    assert forall t :: t in Sort(candidates, le) <==> t in multiset(Sort(candidates, le));
    assert forall t :: t in candidates <==> t in multiset(candidates);
    Sort(candidates, le)
  }

  /**
   `selectWeaknessTemplates`: the `limit` (3) allowed templates with the
   highest score, best first.
   */
  function SelectWeaknessTemplates(cards: seq<Card>, mistakes: map<string, int>, allowed: seq<string>, limit: Option<int>)
    : (r: seq<string>)
    ensures |r| == Min(WeaknessLimit(limit), |Candidates(cards, mistakes, allowed)|)
    ensures forall t :: t in r ==> t in allowed && HasMetric(cards, mistakes, t)
    ensures NoDuplicates(r)
    ensures SortedBy(r, IdOrder(cards, mistakes))
    ensures TopRanked(r, cards, mistakes, allowed)
  {
    var ranked := Ranked(cards, mistakes, allowed);
    var r := SliceTo(ranked, WeaknessLimit(limit));
    TopOfSorted(ranked, |r|, IdOrder(cards, mistakes));
    assert forall t :: t in r ==> t in ranked;
    r
  }

  /** In a sorted sequence, each of the first `k` entries may precede every entry not among them. */
  lemma TopOfSorted(s: seq<string>, k: nat, le: (string, string) -> bool)
    requires k <= |s| && SortedBy(s, le)
    ensures forall u, t :: u in s[..k] && t in s && t !in s[..k] ==> le(u, t)
  {
    forall j | 0 <= j < k ensures s[j] in s[..k] {
      assert s[..k][j] == s[j];
    }
    forall u, t | u in s[..k] && t in s && t !in s[..k] ensures le(u, t) {
      var i :| 0 <= i < k && s[..k][i] == u;
      var j :| 0 <= j < |s| && s[j] == t;
      assert s[i] == u && i < j;
    }
  }

  lemma IdOrderAntisymmetric(cards: seq<Card>, mistakes: map<string, int>)
    ensures Antisymmetric(IdOrder(cards, mistakes))
  {
    forall a: string, b: string | IdOrder(cards, mistakes)(a, b) && IdOrder(cards, mistakes)(b, a) ensures a == b {
      var ma, mb := MetricOf(cards, mistakes, a), MetricOf(cards, mistakes, b);
      assert RanksBefore(ma, mb) && RanksBefore(mb, ma);
      assert Score(ma) == Score(mb) && ma.failure == mb.failure;
      LexLeAntisymmetric(ma.templateId, mb.templateId);
    }
  }

  /**
   The choice depends only on which templates are allowed, not on the
   order they are listed in (the source ranks an object's keys, whose
   order the comparator's final tie-break on ids makes irrelevant).
   */
  lemma SelectionIgnoresOrder(
    cards: seq<Card>, mistakes: map<string, int>, allowed: seq<string>, allowed2: seq<string>, limit: Option<int>)
    requires forall t :: t in allowed <==> t in allowed2
    ensures SelectWeaknessTemplates(cards, mistakes, allowed, limit) == SelectWeaknessTemplates(cards, mistakes, allowed2, limit)
  {
    IdOrderAntisymmetric(cards, mistakes);
    SortedUnique(Ranked(cards, mistakes, allowed), Ranked(cards, mistakes, allowed2), IdOrder(cards, mistakes));
  }

  // ---------------------------------------------------------------------
  // Confusable pairs

  /** `Math.max(1, Math.floor(triggerErrors || 2))` */
  function TriggerErrors(trigger: Option<int>): int
  {
    Max(1, OrElse(trigger, 2))
  }

  /**
   The pair `p` pulls `t` in: `p` is a two-element list, `t` is one side
   and allowed, and the other side has at least `k` mistakes.
   */
  predicate PairPulls(p: seq<string>, t: string, mistakes: map<string, int>, k: int, allowed: seq<string>)
  {
    |p| == 2 && t in allowed
    && ((p[1] == t && Mistakes(mistakes, p[0]) >= k) || (p[0] == t && Mistakes(mistakes, p[1]) >= k))
  }

  /** The ids the pairs add, in the order the source adds them to its set. */
  function PairAdditions(pairs: seq<seq<string>>, mistakes: map<string, int>, k: int, allowed: seq<string>)
    : (r: seq<string>)
    ensures forall t :: t in r <==> exists p :: p in pairs && PairPulls(p, t, mistakes, k, allowed)
    decreases |pairs|
  {
    if |pairs| == 0 then []
    else
      var p := pairs[0];
      var rest := PairAdditions(pairs[1..], mistakes, k, allowed);
      assert forall q :: q in pairs <==> q == p || q in pairs[1..];
      if |p| != 2 then rest
      else
        var head :=
          (if Mistakes(mistakes, p[0]) >= k && p[1] in allowed then [p[1]] else [])
          + (if Mistakes(mistakes, p[1]) >= k && p[0] in allowed then [p[0]] else []);
        assert forall t :: t in head <==> PairPulls(p, t, mistakes, k, allowed);
        head + rest
  }

  /**
   `applyConfusablePairBoost`: the base ids, each once and in order,
   followed by every allowed partner of a template with at least
   `triggerErrors` (2) mistakes.
   */
  function ConfusablePairBoost(
    base: seq<string>, pairs: seq<seq<string>>, trigger: Option<int>,
    mistakes: map<string, int>, allowed: seq<string>): (r: seq<string>)
    ensures Dedup(base) <= r
    ensures NoDuplicates(r)
    ensures forall t :: t in r <==>
      t in base || exists p :: p in pairs && PairPulls(p, t, mistakes, TriggerErrors(trigger), allowed)
    ensures forall t :: t in r && t !in base ==> t in allowed
  {
    var added := PairAdditions(pairs, mistakes, TriggerErrors(trigger), allowed);
    DedupPrefix(base, added);
    Dedup(base + added)
  }
}
