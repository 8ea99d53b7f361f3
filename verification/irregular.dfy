/**
 The irregular-verb policy applied to a built lesson queue: at least
 `min_per_session` irregular items (preferring する and くる), and a
 periodic いく item when the stage teaches a form where いく is irregular.
 Items are placed by appending while the queue is short, else by
 replacing a non-irregular item.
 */
module Irregular {
  import opened Common
  import opened Random
  import opened Curriculum
  import opened Picking

  /** The verb ids with this reading exist. */
  predicate HasKana(verbs: Verbs, kana: string)
  {
    exists id :: id in verbs && verbs[id].kana == kana
  }

  /** The item's verb has the reading, when a reading is asked for. */
  predicate MatchesKana(verbs: Verbs, kana: Option<string>, item: Item)
  {
    kana.None? || (item.pair.verbId in verbs && verbs[item.pair.verbId].kana == kana.value)
  }

  /** The pool items a `selectCandidate` call may return. */
  predicate Selectable(pool: seq<Item>, queue: seq<Item>, verbs: Verbs, kana: Option<string>, x: Item)
  {
    x in pool && MatchesKana(verbs, kana, x) && !Queued(queue, x.pair)
  }

  /**
   `selectCandidate`: a random pool item of the reading that is not yet
   queued, taken from the preferred templates when any qualifies.
   */
  function SelectCandidate(pool: seq<Item>, queue: seq<Item>, verbs: Verbs, kana: Option<string>,
                           preferred: seq<string>, rng: Rng): (r: (Option<Item>, Rng))
    ensures r.0.Some? <==> exists x :: Selectable(pool, queue, verbs, kana, x)
    ensures r.0.Some? ==> Selectable(pool, queue, verbs, kana, r.0.value)
    ensures (exists x :: Selectable(pool, queue, verbs, kana, x) && x.pair.templateId in preferred) ==>
      r.0.Some? && r.0.value.pair.templateId in preferred
  {
    var filtered := Filter(pool, (x: Item) => MatchesKana(verbs, kana, x) && !Queued(queue, x.pair));
    assert forall x :: x in filtered <==> Selectable(pool, queue, verbs, kana, x);
    if |filtered| == 0 then (None, rng)
    else
      var favoured := Filter(filtered, (x: Item) => x.pair.templateId in preferred);
      var source := if |favoured| > 0 then favoured else filtered;
      var (shuffled, rest) := Shuffle(source, rng);
      ShuffleMembers(source, rng, shuffled[0]);
      assert shuffled[0] in shuffled;
      assert filtered[0] in filtered;
      (Some(shuffled[0]), rest)
  }

  // ---------------------------------------------------------------------
  // Replacement

  /** The order in which buckets give up an item: fallback first, current last, quota items never before others. */
  function ReplaceRank(source: Source): nat
  {
    match source
    case FromFallback => 0
    case FromPrevious => 1
    case FromRecent => 2
    case FromWeakness => 3
    case FromCurrent => 4
    case _ => 5
  }

  /**
   The first index from `from` of a non-irregular item of bucket rank
   `rank`, or of any bucket when `rank` is 5; -1 when there is none.
   */
  function FirstWithRank(queue: seq<Item>, verbs: Verbs, rank: nat, from: nat): (r: int)
    requires from <= |queue|
    ensures -1 <= r < |queue|
    ensures r >= 0 ==> from <= r && !IsIrregular(verbs, queue[r]) && (rank < 5 ==> ReplaceRank(queue[r].source) == rank)
    ensures forall j :: from <= j < |queue| && (r < 0 || j < r) && !IsIrregular(verbs, queue[j]) ==>
      rank < 5 && ReplaceRank(queue[j].source) != rank
    decreases |queue| - from
  {
    if from == |queue| then -1
    else if !IsIrregular(verbs, queue[from]) && (rank >= 5 || ReplaceRank(queue[from].source) == rank) then from
    else FirstWithRank(queue, verbs, rank, from + 1)
  }

  /** The passes of `findReplaceIndexForQuota` from rank `rank` on, every lower rank having found nothing. */
  function ReplacePasses(queue: seq<Item>, verbs: Verbs, rank: nat): (r: int)
    requires rank <= 5
    requires forall j :: 0 <= j < |queue| && !IsIrregular(verbs, queue[j]) ==> ReplaceRank(queue[j].source) >= rank
    ensures -1 <= r < |queue|
    ensures r >= 0 ==> !IsIrregular(verbs, queue[r])
    ensures r >= 0 ==> forall j :: 0 <= j < |queue| && !IsIrregular(verbs, queue[j]) ==>
      ReplaceRank(queue[r].source) < ReplaceRank(queue[j].source)
      || (ReplaceRank(queue[r].source) == ReplaceRank(queue[j].source) && r <= j)
    ensures r < 0 ==> forall j :: 0 <= j < |queue| ==> IsIrregular(verbs, queue[j])
    decreases 5 - rank
  {
    var i := FirstWithRank(queue, verbs, rank, 0);
    if i >= 0 || rank == 5 then i
    else ReplacePasses(queue, verbs, rank + 1)
  }

  /**
   `findReplaceIndexForQuota`: the item to give up for a quota item. Never
   an irregular one; among the rest, the lowest bucket rank wins, then the
   earliest position; -1 when every item is irregular.
   */
  function FindReplaceIndex(queue: seq<Item>, verbs: Verbs): (r: int)
    ensures -1 <= r < |queue|
    ensures r < 0 <==> forall j :: 0 <= j < |queue| ==> IsIrregular(verbs, queue[j])
    ensures r >= 0 ==> !IsIrregular(verbs, queue[r])
    ensures r >= 0 ==> forall j :: 0 <= j < |queue| && !IsIrregular(verbs, queue[j]) ==>
      ReplaceRank(queue[r].source) < ReplaceRank(queue[j].source)
      || (ReplaceRank(queue[r].source) == ReplaceRank(queue[j].source) && r <= j)
  {
    ReplacePasses(queue, verbs, 0)
  }

  // ---------------------------------------------------------------------
  // Counting irregular items

  function CountIrregular(queue: seq<Item>, verbs: Verbs): (n: nat)
    ensures n <= |queue|
    decreases |queue|
  {
    if |queue| == 0 then 0
    else CountIrregular(queue[..|queue| - 1], verbs) + (if IsIrregular(verbs, queue[|queue| - 1]) then 1 else 0)
  }

  lemma {:induction false} CountReplace(queue: seq<Item>, verbs: Verbs, i: nat, x: Item)
    requires i < |queue|
    ensures CountIrregular(queue[i := x], verbs) == CountIrregular(queue, verbs)
      - (if IsIrregular(verbs, queue[i]) then 1 else 0) + (if IsIrregular(verbs, x) then 1 else 0)
    decreases |queue|
  {
    var n := |queue|;
    if i < n - 1 {
      assert queue[i := x][..n - 1] == queue[..n - 1][i := x];
      CountReplace(queue[..n - 1], verbs, i, x);
    } else {
      assert queue[i := x][..n - 1] == queue[..n - 1];
    }
  }

  lemma CountAppend(queue: seq<Item>, verbs: Verbs, x: Item)
    ensures CountIrregular(queue + [x], verbs) == CountIrregular(queue, verbs) + (if IsIrregular(verbs, x) then 1 else 0)
  {
    assert (queue + [x])[..|queue|] == queue;
  }

  // ---------------------------------------------------------------------
  // Placing one item

  /** `queue.splice(i, 1, card)` on an item that is not irregular, with a pair not yet queued. */
  function ReplaceAt(queue: seq<Item>, i: nat, card: Item, verbs: Verbs): (r: seq<Item>)
    requires i < |queue| && !IsIrregular(verbs, queue[i]) && !Queued(queue, card.pair)
    ensures |r| == |queue| && Queued(r, card.pair)
    ensures CountIrregular(r, verbs) == CountIrregular(queue, verbs) + (if IsIrregular(verbs, card) then 1 else 0)
    ensures forall j :: 0 <= j < |queue| && IsIrregular(verbs, queue[j]) ==> queue[j] in r
    ensures forall x :: x in r ==> x in queue || x == card
    ensures DistinctPairs(queue) ==> DistinctPairs(r)
  {
    var r := queue[i := card];
    CountReplace(queue, verbs, i, card);
    assert PairsOf(r)[i] == card.pair;
    assert forall j :: 0 <= j < |queue| && IsIrregular(verbs, queue[j]) ==> r[j] == queue[j];
    assert forall x :: x in r ==> x in queue || x == card by {
      forall x | x in r ensures x in queue || x == card {
        var k :| 0 <= k < |r| && r[k] == x;
        if k != i {
          assert queue[k] == x;
        }
      }
    }
    assert forall j :: 0 <= j < |queue| ==> PairsOf(queue)[j] == queue[j].pair;
    r
  }

  /** `queue.push(card)` for a pair not yet queued. */
  function Append(queue: seq<Item>, card: Item, verbs: Verbs): (r: seq<Item>)
    requires !Queued(queue, card.pair)
    ensures r == queue + [card] && Queued(r, card.pair)
    ensures CountIrregular(r, verbs) == CountIrregular(queue, verbs) + (if IsIrregular(verbs, card) then 1 else 0)
    ensures DistinctPairs(queue) ==> DistinctPairs(r)
  {
    CountAppend(queue, verbs, card);
    assert PairsOf(queue + [card])[|queue|] == card.pair;
    assert forall j :: 0 <= j < |queue| ==> PairsOf(queue)[j] == queue[j].pair;
    queue + [card]
  }

  /**
   `ensureCardInQueue`: true when the item's pair is in the queue
   afterwards. A pair already queued leaves the queue alone; otherwise
   the item is appended while the queue is below `dailyCount`, else it
   replaces the item `FindReplaceIndex` names, if any.
   */
  function EnsureCardInQueue(queue: seq<Item>, card: Option<Item>, dailyCount: int, verbs: Verbs): (r: (bool, seq<Item>))
    ensures card.None? ==> r == (false, queue)
    ensures r.0 ==> card.Some? && Queued(r.1, card.value.pair)
    ensures !r.0 ==> r.1 == queue
    ensures card.Some? && Queued(queue, card.value.pair) ==> r == (true, queue)
    ensures card.Some? && !Queued(queue, card.value.pair) && |queue| < dailyCount ==> r == (true, queue + [card.value])
    ensures !r.0 && card.Some? ==> |queue| >= dailyCount && forall j :: 0 <= j < |queue| ==> IsIrregular(verbs, queue[j])
    ensures |r.1| == |queue| || (|queue| < dailyCount && |r.1| == |queue| + 1)
    ensures card.Some? && !Queued(queue, card.value.pair) && r.0 ==>
      CountIrregular(r.1, verbs) == CountIrregular(queue, verbs) + (if IsIrregular(verbs, card.value) then 1 else 0)
    ensures CountIrregular(r.1, verbs) >= CountIrregular(queue, verbs)
    ensures forall j :: 0 <= j < |queue| && IsIrregular(verbs, queue[j]) ==> queue[j] in r.1
    ensures forall x :: x in r.1 ==> x in queue || (card.Some? && x == card.value)
    ensures DistinctPairs(queue) ==> DistinctPairs(r.1)
    ensures |queue| >= dailyCount && (forall j :: 0 <= j < |queue| ==> IsIrregular(verbs, queue[j])) ==>
      r.1 == queue && (r.0 <==> card.Some? && Queued(queue, card.value.pair))
  {
    match card
    case None => (false, queue)
    case Some(c) =>
      if Queued(queue, c.pair) then (true, queue)
      else if |queue| < dailyCount then (true, Append(queue, c, verbs))
      else
        var i := FindReplaceIndex(queue, verbs);
        if i < 0 then (false, queue)
        else (true, ReplaceAt(queue, i, c, verbs))
  }

  // ---------------------------------------------------------------------
  // The policy

  /** The `irregular_policy` block of a path; an absent list or number reads as `None`, an absent flag as enabled. */
  datatype IrregularPolicy = IrregularPolicy(
    enabled: bool,
    minPerSession: Option<int>,
    primaryKana: Option<seq<string>>,
    ikuSpecialTemplates: seq<string>,
    ikuEveryNSessions: Option<int>)

  /** The path-state fields the policy writes back: the session count always, the last いく session when one was placed. */
  datatype PathPatch = PathPatch(lessonSessionCount: nat, lastIkuSession: Option<nat>)

  datatype PolicyResult = PolicyResult(queue: seq<Item>, patch: PathPatch, ikuInjected: bool, rng: Rng)

  /** The pairs as queue items of one bucket. */
  function Tag(pairs: seq<Pair>, source: Source): (r: seq<Item>)
    ensures |r| == |pairs|
    ensures forall x: Item :: x in r <==> x.pair in pairs && x.source == source
  {
    var r := seq(|pairs|, i requires 0 <= i < |pairs| => Item(pairs[i], source));
    assert forall x: Item :: x.pair in pairs && x.source == source ==> x in r by {
      forall x: Item | x.pair in pairs && x.source == source ensures x in r {
        var i :| 0 <= i < |pairs| && pairs[i] == x.pair;
        assert r[i] == x;
      }
    }
    r
  }

  /** The unseen pairs of unlocked templates whose verb is irregular, as quota items. */
  function IrregularPool(unseen: seq<Pair>, unlocked: seq<string>, verbs: Verbs): (r: seq<Item>)
    ensures forall x :: x in r <==>
      x.pair in unseen && x.pair.templateId in unlocked && x.source == FromIrregularQuota && IsIrregular(verbs, x)
  {
    Tag(Filter(unseen, (p: Pair) => p.templateId in unlocked && VerbClass(verbs, p.verbId) == "irregular"),
        FromIrregularQuota)
  }

  /** The unseen pairs of unlocked templates whose verb reads いく, as quota items. */
  function IkuPool(unseen: seq<Pair>, unlocked: seq<string>, verbs: Verbs): (r: seq<Item>)
    ensures forall x :: x in r <==>
      x.pair in unseen && x.pair.templateId in unlocked && x.source == FromIkuQuota && MatchesKana(verbs, Some("いく"), x)
  {
    Tag(Filter(unseen, (p: Pair) => p.templateId in unlocked && p.verbId in verbs && verbs[p.verbId].kana == "いく"),
        FromIkuQuota)
  }

  /** `Math.max(0, Math.floor(asNumber(min_per_session, 2)))` */
  function MinIrregular(policy: IrregularPolicy): nat
  {
    Max(0, policy.minPerSession.GetOr(2))
  }

  /** The readings tried first, する and くる unless the policy names others. */
  function PrimaryKana(policy: IrregularPolicy): seq<string>
  {
    policy.primaryKana.GetOr(["する", "くる"])
  }

  /** `Math.max(1, Math.floor(asNumber(iku_every_n_sessions, 2)))` */
  function IkuEvery(policy: IrregularPolicy): int
  {
    Max(1, policy.ikuEveryNSessions.GetOr(2))
  }

  /** `Math.max(1, Math.floor(dailyCount || queue.length || 10))` */
  function PolicyDaily(dailyCount: Option<int>, queue: seq<Item>): (d: int)
    ensures d >= 1
    ensures dailyCount.Some? && dailyCount.value >= 1 ==> d == dailyCount.value
  {
    Max(1, OrElse(dailyCount, if |queue| != 0 then |queue| else 10))
  }

  /**
   What placing quota items may do to a queue: the irregular count never
   drops, pairs stay distinct, the queue grows only up to `daily`, every
   new item comes from the pool, and no irregular item is removed.
   */
  ghost predicate Grows(queue: seq<Item>, r: seq<Item>, pool: seq<Item>, daily: int, verbs: Verbs)
  {
    && CountIrregular(r, verbs) >= CountIrregular(queue, verbs)
    && (DistinctPairs(queue) ==> DistinctPairs(r))
    && |r| <= Max(|queue|, daily)
    && (forall x :: x in r ==> x in queue || x in pool)
    && (forall j :: 0 <= j < |queue| && IsIrregular(verbs, queue[j]) ==> queue[j] in r)
  }

  lemma GrowsRefl(queue: seq<Item>, pool: seq<Item>, daily: int, verbs: Verbs)
    ensures Grows(queue, queue, pool, daily, verbs)
  {
  }

  lemma GrowsTrans(a: seq<Item>, b: seq<Item>, c: seq<Item>, pool: seq<Item>, daily: int, verbs: Verbs)
    requires Grows(a, b, pool, daily, verbs) && Grows(b, c, pool, daily, verbs)
    ensures Grows(a, c, pool, daily, verbs)
  {
    forall j | 0 <= j < |a| && IsIrregular(verbs, a[j]) ensures a[j] in c {
      var k :| 0 <= k < |b| && b[k] == a[j];
      assert IsIrregular(verbs, b[k]);
    }
  }

  /** One `ensureCardInQueue` of a pool item grows the queue. */
  lemma EnsureGrows(queue: seq<Item>, card: Option<Item>, pool: seq<Item>, daily: int, verbs: Verbs)
    requires card.Some? ==> card.value in pool
    ensures Grows(queue, EnsureCardInQueue(queue, card, daily, verbs).1, pool, daily, verbs)
  {
  }

  /**
   The quota is met, or cannot be met: the queue holds `min` irregular
   items, or every pool pair is already queued, or the queue is full of
   irregular items.
   */
  ghost predicate Saturated(queue: seq<Item>, pool: seq<Item>, min: int, daily: int, verbs: Verbs)
  {
    || CountIrregular(queue, verbs) >= min
    || (forall x :: x in pool ==> Queued(queue, x.pair))
    || (|queue| >= daily && forall j :: 0 <= j < |queue| ==> IsIrregular(verbs, queue[j]))
  }

  /** The first loop of `enforceIrregularPolicy`: one item for each primary reading while the quota is short. */
  function PrimaryLoop(queue: seq<Item>, kanas: seq<string>, pool: seq<Item>, min: int, daily: int,
                       verbs: Verbs, current: seq<string>, rng: Rng): (r: (seq<Item>, Rng))
    ensures Grows(queue, r.0, pool, daily, verbs)
    decreases |kanas|
  {
    if |kanas| == 0 || CountIrregular(queue, verbs) >= min then (queue, rng)
    else if !HasKana(verbs, kanas[0]) then PrimaryLoop(queue, kanas[1..], pool, min, daily, verbs, current, rng)
    else
      var (card, g) := SelectCandidate(pool, queue, verbs, Some(kanas[0]), current, rng);
      var (_, q) := EnsureCardInQueue(queue, card, daily, verbs);
      EnsureGrows(queue, card, pool, daily, verbs);
      var r := PrimaryLoop(q, kanas[1..], pool, min, daily, verbs, current, g);
      GrowsTrans(queue, q, r.0, pool, daily, verbs);
      r
  }

  /**
   The second loop: any pool item while the quota is short, stopping when
   none can be placed. Each placement adds one irregular item.
   */
  function FillLoop(queue: seq<Item>, pool: seq<Item>, min: int, daily: int,
                    verbs: Verbs, current: seq<string>, rng: Rng): (r: (seq<Item>, Rng))
    requires forall x :: x in pool ==> IsIrregular(verbs, x)
    ensures Grows(queue, r.0, pool, daily, verbs)
    ensures Saturated(r.0, pool, min, daily, verbs)
    decreases Max(0, min - CountIrregular(queue, verbs))
  {
    if CountIrregular(queue, verbs) >= min then (queue, rng)
    else
      var (card, g) := SelectCandidate(pool, queue, verbs, None, current, rng);
      var (placed, q) := EnsureCardInQueue(queue, card, daily, verbs);
      EnsureGrows(queue, card, pool, daily, verbs);
      if !placed then
        assert card.None? ==> forall x :: x in pool ==> Queued(queue, x.pair) by {
          if card.None? {
            forall x | x in pool ensures Queued(queue, x.pair) {
              if !Queued(queue, x.pair) {
                assert Selectable(pool, queue, verbs, None, x);
              }
            }
          }
        }
        (queue, g)
      else
        var r := FillLoop(q, pool, min, daily, verbs, current, g);
        GrowsTrans(queue, q, r.0, pool, daily, verbs);
        r
  }

  /** The quota part of `enforceIrregularPolicy`, for an enabled policy. */
  function QuotaPhase(queue: seq<Item>, policy: IrregularPolicy, pool: seq<Item>, daily: int,
                      verbs: Verbs, current: seq<string>, rng: Rng): (r: (seq<Item>, Rng))
    requires forall x :: x in pool ==> IsIrregular(verbs, x)
    ensures Grows(queue, r.0, pool, daily, verbs)
    ensures |pool| > 0 && MinIrregular(policy) > 0 ==> Saturated(r.0, pool, MinIrregular(policy), daily, verbs)
    ensures |pool| == 0 || MinIrregular(policy) == 0 ==> r == (queue, rng)
  {
    if |pool| > 0 && MinIrregular(policy) > 0 then
      var (q1, g1) := PrimaryLoop(queue, PrimaryKana(policy), pool, MinIrregular(policy), daily, verbs, current, rng);
      var r := FillLoop(q1, pool, MinIrregular(policy), daily, verbs, current, g1);
      GrowsTrans(queue, q1, r.0, pool, daily, verbs);
      r
    else
      GrowsRefl(queue, pool, daily, verbs);
      (queue, rng)
  }

  /** Some current template is one where いく conjugates irregularly. */
  predicate RequiresIku(policy: IrregularPolicy, current: seq<string>)
  {
    exists t :: t in current && t in policy.ikuSpecialTemplates
  }

  /** An いく item is due: the stage needs one and enough sessions passed since the last. */
  predicate IkuDue(policy: IrregularPolicy, current: seq<string>, session: int, lastIku: int)
  {
    RequiresIku(policy, current) && session - lastIku >= IkuEvery(policy)
  }

  /** Some queue item is not irregular, so a full queue can still give one up. */
  predicate HasReplaceable(queue: seq<Item>, verbs: Verbs)
  {
    exists j :: 0 <= j < |queue| && !IsIrregular(verbs, queue[j])
  }

  lemma KanaPoolHasKana(pool: seq<Item>, queue: seq<Item>, verbs: Verbs, kana: string)
    requires forall x :: x in pool ==> MatchesKana(verbs, Some(kana), x)
    ensures (exists x :: Selectable(pool, queue, verbs, None, x)) ==> HasKana(verbs, kana)
  {
    if x :| Selectable(pool, queue, verbs, None, x) {
      assert x.pair.verbId in verbs && verbs[x.pair.verbId].kana == kana;
    }
  }

  /**
   A saturated quota stays saturated through a step that grows the queue
   and leaves a queue full of irregular items alone.
   */
  lemma SaturatedKept(queue: seq<Item>, r: seq<Item>, pool: seq<Item>, other: seq<Item>, min: int, daily: int, verbs: Verbs)
    requires forall x :: x in pool ==> IsIrregular(verbs, x)
    requires Grows(queue, r, other, daily, verbs)
    requires |queue| >= daily && !HasReplaceable(queue, verbs) ==> r == queue
    ensures Saturated(queue, pool, min, daily, verbs) ==> Saturated(r, pool, min, daily, verbs)
  {
    if forall x :: x in pool ==> Queued(queue, x.pair) {
      forall x | x in pool ensures Queued(r, x.pair) {
        var j :| 0 <= j < |queue| && PairsOf(queue)[j] == x.pair;
        assert IsIrregular(verbs, queue[j]);
        var k :| 0 <= k < |r| && r[k] == queue[j];
        assert PairsOf(r)[k] == x.pair;
      }
    }
  }

  /**
   The いく step of `enforceIrregularPolicy`: when due, an unqueued いく
   item of an unlocked template is placed, preferring the special templates.
   */
  function IkuStep(queue: seq<Item>, policy: IrregularPolicy, ikuPool: seq<Item>, current: seq<string>,
                   session: int, lastIku: int, daily: int, verbs: Verbs, rng: Rng): (r: (bool, seq<Item>, Rng))
    requires forall x :: x in ikuPool ==> MatchesKana(verbs, Some("いく"), x)
    ensures r.0 <==> (IkuDue(policy, current, session, lastIku)
                      && (exists x :: Selectable(ikuPool, queue, verbs, None, x))
                      && (|queue| < daily || HasReplaceable(queue, verbs)))
    ensures r.0 ==> exists x :: x in r.1 && x in ikuPool && !Queued(queue, x.pair)
    ensures Grows(queue, r.1, ikuPool, daily, verbs)
    ensures |queue| >= daily && !HasReplaceable(queue, verbs) ==> r.1 == queue
  {
    if IkuDue(policy, current, session, lastIku) && HasKana(verbs, "いく") then
      var (card, g) := SelectCandidate(ikuPool, queue, verbs, None, policy.ikuSpecialTemplates, rng);
      var (placed, q) := EnsureCardInQueue(queue, card, daily, verbs);
      EnsureGrows(queue, card, ikuPool, daily, verbs);
      if placed then
        assert card.value in q by {
          var k :| 0 <= k < |q| && PairsOf(q)[k] == card.value.pair;
          assert q[k] in queue || q[k] == card.value;
        }
        (placed, q, g)
      else (placed, q, g)
    else
      KanaPoolHasKana(ikuPool, queue, verbs, "いく");
      GrowsRefl(queue, ikuPool, daily, verbs);
      (false, queue, rng)
  }

  /** Both quota pools. */
  function QuotaPools(unseen: seq<Pair>, unlocked: seq<string>, verbs: Verbs): seq<Item>
  {
    IrregularPool(unseen, unlocked, verbs) + IkuPool(unseen, unlocked, verbs)
  }

  /** The queue, いく flag and generator an enabled policy leaves behind. */
  function ApplyPolicy(queue: seq<Item>, policy: IrregularPolicy, daily: int, unseen: seq<Pair>, unlocked: seq<string>,
                       current: seq<string>, verbs: Verbs, session: int, lastIku: int, rng: Rng): (r: (seq<Item>, bool, Rng))
    ensures Grows(queue, r.0, QuotaPools(unseen, unlocked, verbs), daily, verbs)
    ensures var pool := IrregularPool(unseen, unlocked, verbs);
      |pool| > 0 && MinIrregular(policy) > 0 ==> Saturated(r.0, pool, MinIrregular(policy), daily, verbs)
    ensures r.1 ==> IkuDue(policy, current, session, lastIku)
    ensures r.1 ==> exists x :: x in r.0 && x in IkuPool(unseen, unlocked, verbs)
  {
    var pool := IrregularPool(unseen, unlocked, verbs);
    var ikuPool := IkuPool(unseen, unlocked, verbs);
    var all := QuotaPools(unseen, unlocked, verbs);
    var (q1, g1) := QuotaPhase(queue, policy, pool, daily, verbs, current, rng);
    var (injected, q2, g2) := IkuStep(q1, policy, ikuPool, current, session, lastIku, daily, verbs, g1);
    assert Grows(q1, q2, all, daily, verbs);
    assert Grows(queue, q1, all, daily, verbs);
    GrowsTrans(queue, q1, q2, all, daily, verbs);
    SaturatedKept(q1, q2, pool, ikuPool, MinIrregular(policy), daily, verbs);
    (q2, injected, g2)
  }

  /**
   `enforceIrregularPolicy`: with an enabled policy, tops the queue up to
   `min_per_session` irregular items from the unseen pairs of unlocked
   templates, then places a due いく item; the session count always moves on.
   */
  function EnforceIrregularPolicy(
    policy: Option<IrregularPolicy>, queue: seq<Item>, dailyCount: Option<int>, unseen: seq<Pair>,
    unlocked: seq<string>, current: seq<string>, verbs: Verbs, stored: StoredPathState, now: Time, rng: Rng)
    : (r: PolicyResult)
    ensures r.patch.lessonSessionCount == NormalizePathState(stored, now).lessonSessionCount + 1
    ensures r.ikuInjected <==> r.patch.lastIkuSession.Some?
    ensures r.ikuInjected ==> r.patch.lastIkuSession == Some(r.patch.lessonSessionCount)
    ensures policy.None? || !policy.value.enabled ==> r.queue == queue && !r.ikuInjected
    ensures r.ikuInjected ==> policy.Some? && IkuDue(policy.value, current, r.patch.lessonSessionCount,
                                                     NormalizePathState(stored, now).lastIkuSession)
    ensures r.ikuInjected ==> exists x :: x in r.queue && x in IkuPool(unseen, unlocked, verbs)
    ensures Grows(queue, r.queue, QuotaPools(unseen, unlocked, verbs), PolicyDaily(dailyCount, queue), verbs)
    ensures var pool := IrregularPool(unseen, unlocked, verbs);
      policy.Some? && policy.value.enabled && |pool| > 0 && MinIrregular(policy.value) > 0 ==>
        Saturated(r.queue, pool, MinIrregular(policy.value), PolicyDaily(dailyCount, queue), verbs)
  {
    EnforceOnState(policy, queue, dailyCount, unseen, unlocked, current, verbs, NormalizePathState(stored, now), rng)
  }

  /** `enforceIrregularPolicy` once the path state has been normalized. */
  function EnforceOnState(
    policy: Option<IrregularPolicy>, queue: seq<Item>, dailyCount: Option<int>, unseen: seq<Pair>,
    unlocked: seq<string>, current: seq<string>, verbs: Verbs, state: PathState, rng: Rng)
    : (r: PolicyResult)
    ensures r.patch.lessonSessionCount == state.lessonSessionCount + 1
    ensures r.ikuInjected <==> r.patch.lastIkuSession.Some?
    ensures r.ikuInjected ==> r.patch.lastIkuSession == Some(r.patch.lessonSessionCount)
    ensures policy.None? || !policy.value.enabled ==> r.queue == queue && !r.ikuInjected
    ensures r.ikuInjected ==> policy.Some? && IkuDue(policy.value, current, r.patch.lessonSessionCount, state.lastIkuSession)
    ensures r.ikuInjected ==> exists x :: x in r.queue && x in IkuPool(unseen, unlocked, verbs)
    ensures Grows(queue, r.queue, QuotaPools(unseen, unlocked, verbs), PolicyDaily(dailyCount, queue), verbs)
    ensures var pool := IrregularPool(unseen, unlocked, verbs);
      policy.Some? && policy.value.enabled && |pool| > 0 && MinIrregular(policy.value) > 0 ==>
        Saturated(r.queue, pool, MinIrregular(policy.value), PolicyDaily(dailyCount, queue), verbs)
  {
    var session := state.lessonSessionCount + 1;
    if policy.None? || !policy.value.enabled then
      GrowsRefl(queue, QuotaPools(unseen, unlocked, verbs), PolicyDaily(dailyCount, queue), verbs);
      PolicyResult(queue, PathPatch(session, None), false, rng)
    else
      var (q, injected, g) := ApplyPolicy(queue, policy.value, PolicyDaily(dailyCount, queue), unseen, unlocked,
                                          current, verbs, session, state.lastIkuSession, rng);
      PolicyResult(q, PathPatch(session, if injected then Some(session) else None), injected, g)
  }
}
