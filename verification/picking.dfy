/**
 Filling a lesson queue from pools of unseen (verb, template) pairs: the
 recent-verb window and duplicate check every pick obeys, the split of a
 bucket's count across verb classes, and picking biased toward classes a
 failed gate singled out.
 */
module Picking {
  import opened Common
  import opened Sorting
  import opened Random
  import opened Composition

  datatype Pair = Pair(verbId: string, templateId: string)

  /** `source_bucket`: which part of the composition an item was picked for (absent reads as fallback). */
  datatype Source = FromCurrent | FromPrevious | FromRecent | FromWeakness | FromFallback | FromIrregularQuota | FromIkuQuota

  datatype Item = Item(pair: Pair, source: Source)

  /** A verb's reading and its class, lower-case ("godan", "ichidan", "irregular"). */
  datatype Verb = Verb(kana: string, verbClass: string)

  type Verbs = map<string, Verb>

  /** `getVerbClassForItem`: the class of the item's verb, "" for an unknown verb. */
  function VerbClass(verbs: Verbs, verbId: string): string
  {
    if verbId in verbs then verbs[verbId].verbClass else ""
  }

  predicate IsIrregular(verbs: Verbs, item: Item)
  {
    VerbClass(verbs, item.pair.verbId) == "irregular"
  }

  function PairsOf(queue: seq<Item>): (r: seq<Pair>)
    ensures |r| == |queue| && forall i :: 0 <= i < |queue| ==> r[i] == queue[i].pair
  {
    seq(|queue|, i requires 0 <= i < |queue| => queue[i].pair)
  }

  function VerbIdsOf(queue: seq<Item>): (r: seq<string>)
    ensures |r| == |queue| && forall i :: 0 <= i < |queue| ==> r[i] == queue[i].pair.verbId
  {
    seq(|queue|, i requires 0 <= i < |queue| => queue[i].pair.verbId)
  }

  /** Some item of the queue teaches this pair. */
  predicate Queued(queue: seq<Item>, p: Pair)
  {
    p in PairsOf(queue)
  }

  /** No pair is taught twice. */
  ghost predicate DistinctPairs(queue: seq<Item>)
  {
    forall i, j :: 0 <= i < j < |queue| ==> queue[i].pair != queue[j].pair
  }

  /** A verb is not repeated within this many queue entries. */
  const RecentVerbWindow: int := 5

  /** The verb is among the last `RecentVerbWindow` entries of the queue. */
  predicate VerbRecent(queue: seq<Item>, verbId: string)
  {
    verbId in VerbIdsOf(SliceFrom(queue, -RecentVerbWindow))
  }

  /** `pickFromPool`'s two skip tests: a recently used verb, a pair already queued. */
  predicate Admissible(queue: seq<Item>, item: Item)
  {
    !VerbRecent(queue, item.pair.verbId) && !Queued(queue, item.pair)
  }

  /** Entry `i` of `r` comes from `pool` and was admissible after the entries before it. */
  ghost predicate AddedFrom(r: seq<Item>, i: int, pool: seq<Item>)
    requires 0 <= i < |r|
  {
    r[i] in pool && Admissible(r[..i], r[i])
  }

  /** `r` is `queue` with items of `pool` appended, each admissible when it was added. */
  ghost predicate Extends(queue: seq<Item>, r: seq<Item>, pool: seq<Item>)
  {
    queue <= r && forall i :: |queue| <= i < |r| ==> AddedFrom(r, i, pool)
  }

  /** Appending one admissible item of `pool` ahead of items of `rest` is appending from `pool`. */
  lemma ExtendsStep(queue: seq<Item>, item: Item, r: seq<Item>, rest: seq<Item>, pool: seq<Item>)
    requires item in pool && Admissible(queue, item)
    requires Extends(queue + [item], r, rest) && SubsetOf(rest, pool)
    ensures Extends(queue, r, pool)
  {
    forall i | |queue| <= i < |r| ensures AddedFrom(r, i, pool) {
      if i == |queue| {
        assert r[..i] == queue && r[i] == item;
      } else {
        assert AddedFrom(r, i, rest);
      }
    }
  }

  lemma ExtendsRefl(queue: seq<Item>, pool: seq<Item>)
    ensures Extends(queue, queue, pool)
  {
  }

  /** Appending from a pool is appending from any pool holding it. */
  lemma ExtendsWiden(queue: seq<Item>, r: seq<Item>, p1: seq<Item>, pool: seq<Item>)
    requires Extends(queue, r, p1) && SubsetOf(p1, pool)
    ensures Extends(queue, r, pool)
  {
    forall i | |queue| <= i < |r| ensures AddedFrom(r, i, pool) {
      assert AddedFrom(r, i, p1);
    }
  }

  /** Every item appended comes from the pool. */
  lemma ExtendsMembers(queue: seq<Item>, r: seq<Item>, pool: seq<Item>)
    requires Extends(queue, r, pool)
    ensures forall x :: x in r ==> x in queue || x in pool
  {
    forall x | x in r && x !in queue ensures x in pool {
      var i :| 0 <= i < |r| && r[i] == x;
      assert AddedFrom(r, i, pool);
    }
  }

  /** Two rounds of appending are one, over any pool holding both pools. */
  lemma ExtendsTrans(a: seq<Item>, b: seq<Item>, c: seq<Item>, p1: seq<Item>, p2: seq<Item>, pool: seq<Item>)
    requires Extends(a, b, p1) && Extends(b, c, p2)
    requires SubsetOf(p1, pool) && SubsetOf(p2, pool)
    ensures Extends(a, c, pool)
  {
    forall i | |a| <= i < |c| ensures AddedFrom(c, i, pool) {
      if i < |b| {
        assert AddedFrom(b, i, p1);
        assert c[..i] == b[..i] && c[i] == b[i];
      } else {
        assert AddedFrom(c, i, p2);
      }
    }
  }

  /** Appending admissibly keeps every pair distinct. */
  lemma ExtendsDistinct(queue: seq<Item>, r: seq<Item>, pool: seq<Item>)
    requires Extends(queue, r, pool) && DistinctPairs(queue)
    ensures DistinctPairs(r)
  {
    forall i, j | 0 <= i < j < |r| ensures r[i].pair != r[j].pair {
      if j >= |queue| {
        assert AddedFrom(r, j, pool);
        assert PairsOf(r[..j])[i] == r[i].pair;
      } else {
        assert r[i] == queue[i] && r[j] == queue[j];
      }
    }
  }

  /** The loop of `pickFromPool` over the shuffled pool, with `budget` picks left. */
  function PickLoop(queue: seq<Item>, candidates: seq<Item>, budget: int): (r: seq<Item>)
    ensures Extends(queue, r, candidates)
    ensures |r| - |queue| <= Max(0, budget)
    ensures budget > 0 && r == queue ==> forall x :: x in candidates ==> !Admissible(queue, x)
    decreases |candidates|
  {
    if |candidates| == 0 || budget <= 0 then queue
    else
      var item := candidates[0];
      assert forall x :: x in candidates[1..] ==> x in candidates;
      if Admissible(queue, item) then
        var r := PickLoop(queue + [item], candidates[1..], budget - 1);
        ExtendsStep(queue, item, r, candidates[1..], candidates);
        r
      else
        assert forall x :: x in candidates ==> x == item || x in candidates[1..];
        var r := PickLoop(queue, candidates[1..], budget);
        ExtendsWiden(queue, r, candidates[1..], candidates);
        r
  }

  /**
   `pickFromPool`: up to `count` items of the shuffled pool appended to
   the queue, skipping any whose verb is among the last five entries or
   whose pair is already queued.
   */
  function PickFromPool(queue: seq<Item>, pool: seq<Item>, count: int, rng: Rng): (r: (seq<Item>, Rng))
    ensures Extends(queue, r.0, pool)
    ensures |r.0| - |queue| <= Max(0, count)
    ensures count > 0 && r.0 == queue ==> forall x :: x in pool ==> !Admissible(queue, x)
  {
    var (shuffled, rest) := Shuffle(pool, rng);
    assert forall x :: x in shuffled <==> x in pool by {
      forall x ensures x in shuffled <==> x in pool {
        ShuffleMembers(pool, rng, x);
      }
    }
    var r := PickLoop(queue, shuffled, count);
    ExtendsWiden(queue, r, shuffled, pool);
    (r, rest)
  }

  // ---------------------------------------------------------------------
  // Class targets

  datatype Targets = Targets(godan: int, ichidan: int, irregular: int)
  {
    function Sum(): int { godan + ichidan + irregular }

    function For(verbClass: nat): int
    {
      if verbClass == 0 then godan else if verbClass == 1 then ichidan else irregular
    }
  }

  /** A class's weight: its base share plus 0.08 per point of (non-negative) bias. */
  function Weight(verbClass: nat, bias: ClassBias): (w: real)
    ensures w > 0.0
  {
    if verbClass == 0 then 0.6 + 0.08 * Max(0, bias.godan) as real
    else if verbClass == 1 then 0.33 + 0.08 * Max(0, bias.ichidan) as real
    else 0.07 + 0.08 * Max(0, bias.irregular) as real
  }

  function WeightSum(bias: ClassBias): (s: real)
    ensures s > 0.0
  {
    Weight(0, bias) + Weight(1, bias) + Weight(2, bias)
  }

  /** The exact share of `count` a class would get. */
  function Raw(count: nat, verbClass: nat, bias: ClassBias): (r: real)
    ensures r >= 0.0
  {
    (count as real * Weight(verbClass, bias)) / WeightSum(bias)
  }

  /** Splitting `c` in proportion to three positive weights loses nothing. */
  lemma ProportionalSplit(c: real, w0: real, w1: real, w2: real)
    requires w0 + w1 + w2 > 0.0
    ensures (c * w0) / (w0 + w1 + w2) + (c * w1) / (w0 + w1 + w2) + (c * w2) / (w0 + w1 + w2) == c
  {
    var s := w0 + w1 + w2;
    assert (c * w0) / s + (c * w1) / s + (c * w2) / s == (c * w0 + c * w1 + c * w2) / s;
    assert c * w0 + c * w1 + c * w2 == c * s;
  }

  lemma RawShares(count: nat, bias: ClassBias)
    ensures Raw(count, 0, bias) + Raw(count, 1, bias) + Raw(count, 2, bias) == count as real
  {
    ProportionalSplit(count as real, Weight(0, bias), Weight(1, bias), Weight(2, bias));
  }

  lemma FloorBounds(x: real)
    ensures x.Floor as real <= x < x.Floor as real + 1.0
  {
  }

  function Frac(x: real): real
  {
    x - x.Floor as real
  }

  /** The exact shares of the three classes, in the order godan, ichidan, irregular. */
  datatype Shares = Shares(godan: real, ichidan: real, irregular: real)
  {
    function For(verbClass: nat): real
    {
      if verbClass == 0 then godan else if verbClass == 1 then ichidan else irregular
    }
  }

  function SharesOf(count: nat, bias: ClassBias): (r: Shares)
    ensures r.godan + r.ichidan + r.irregular == count as real
    ensures forall c: nat :: r.For(c) == Raw(count, c, bias)
  {
    RawShares(count, bias);
    Shares(Raw(count, 0, bias), Raw(count, 1, bias), Raw(count, 2, bias))
  }

  /**
   Class `d` is ahead of class `c` in the remainder order: a larger
   fractional part, or an equal one and earlier in the order godan,
   ichidan, irregular (the source's sort is stable).
   */
  predicate Ahead(raw: Shares, d: nat, c: nat)
  {
    Frac(raw.For(d)) > Frac(raw.For(c)) || (Frac(raw.For(d)) == Frac(raw.For(c)) && d < c)
  }

  /** The position of class `c` once the three classes are sorted by fractional part. */
  function Position(raw: Shares, c: nat): nat
  {
    (if Ahead(raw, 0, c) then 1 else 0) + (if Ahead(raw, 1, c) then 1 else 0) + (if Ahead(raw, 2, c) then 1 else 0)
  }

  /** A class gets one of the leftover items when it is among the first `remainder` of the order. */
  predicate GetsExtra(raw: Shares, remainder: int, c: nat)
  {
    Position(raw, c) < remainder
  }

  /** With 0 to 2 items left over, exactly that many classes get one, largest fraction first. */
  lemma ExtrasOneEach(raw: Shares, remainder: int)
    requires 0 <= remainder <= 2
    ensures (if GetsExtra(raw, remainder, 0) then 1 else 0) + (if GetsExtra(raw, remainder, 1) then 1 else 0)
      + (if GetsExtra(raw, remainder, 2) then 1 else 0) == remainder
  {
  }

  /** One extra item for each of the first `remainder` classes of the order. */
  function Extras(raw: Shares, remainder: int): (e: Targets)
    requires 0 <= remainder <= 2
    ensures e.Sum() == remainder
    ensures 0 <= e.godan <= 1 && 0 <= e.ichidan <= 1 && 0 <= e.irregular <= 1
    ensures forall c: nat :: c < 3 ==> (e.For(c) == 1 <==> GetsExtra(raw, remainder, c))
  {
    ExtrasOneEach(raw, remainder);
    Targets(
      if GetsExtra(raw, remainder, 0) then 1 else 0,
      if GetsExtra(raw, remainder, 1) then 1 else 0,
      if GetsExtra(raw, remainder, 2) then 1 else 0)
  }

  /** The shares rounded down. */
  function Floors(raw: Shares): Targets
  {
    Targets(raw.godan.Floor, raw.ichidan.Floor, raw.irregular.Floor)
  }

  /** The largest-remainder split of `n` items by the shares `raw`. */
  function LargestRemainder(n: nat, raw: Shares): (r: Targets)
    requires raw.godan >= 0.0 && raw.ichidan >= 0.0 && raw.irregular >= 0.0
    requires raw.godan + raw.ichidan + raw.irregular == n as real
    ensures r.Sum() == n
    ensures raw.godan.Floor <= r.godan <= raw.godan.Floor + 1
    ensures raw.ichidan.Floor <= r.ichidan <= raw.ichidan.Floor + 1
    ensures raw.irregular.Floor <= r.irregular <= raw.irregular.Floor + 1
    ensures r.godan == raw.godan.Floor + (if GetsExtra(raw, n - Floors(raw).Sum(), 0) then 1 else 0)
    ensures r.ichidan == raw.ichidan.Floor + (if GetsExtra(raw, n - Floors(raw).Sum(), 1) then 1 else 0)
    ensures r.irregular == raw.irregular.Floor + (if GetsExtra(raw, n - Floors(raw).Sum(), 2) then 1 else 0)
  {
    var floors := Floors(raw);
    FloorBounds(raw.godan);
    FloorBounds(raw.ichidan);
    FloorBounds(raw.irregular);
    var e := Extras(raw, n - floors.Sum());
    Targets(floors.godan + e.godan, floors.ichidan + e.ichidan, floors.irregular + e.irregular)
  }

  /** A larger fractional part puts a class strictly ahead in the order. */
  lemma PositionOrder(raw: Shares, a: nat, b: nat)
    requires a < 3 && b < 3 && Frac(raw.For(a)) > Frac(raw.For(b))
    ensures Position(raw, a) < Position(raw, b)
  {
  }

  /** A class's target is its share rounded down, plus one when it gets an extra item. */
  lemma LargestRemainderAt(n: nat, raw: Shares, c: nat)
    requires raw.godan >= 0.0 && raw.ichidan >= 0.0 && raw.irregular >= 0.0
    requires raw.godan + raw.ichidan + raw.irregular == n as real
    requires c < 3
    ensures LargestRemainder(n, raw).For(c) == raw.For(c).Floor + (if GetsExtra(raw, n - Floors(raw).Sum(), c) then 1 else 0)
  {
    var r := LargestRemainder(n, raw);
    if c == 0 {
      assert r.For(c) == r.godan;
    } else if c == 1 {
      assert r.For(c) == r.ichidan;
    } else {
      assert r.For(c) == r.irregular;
    }
  }

  /** A class with a larger fractional part gets its extra item before one with a smaller. */
  lemma LargerFractionFirst(n: nat, raw: Shares, a: nat, b: nat)
    requires raw.godan >= 0.0 && raw.ichidan >= 0.0 && raw.irregular >= 0.0
    requires raw.godan + raw.ichidan + raw.irregular == n as real
    requires a < 3 && b < 3 && Frac(raw.For(a)) > Frac(raw.For(b))
    ensures LargestRemainder(n, raw).For(b) > raw.For(b).Floor ==> LargestRemainder(n, raw).For(a) > raw.For(a).Floor
  {
    PositionOrder(raw, a, b);
    LargestRemainderAt(n, raw, a);
    LargestRemainderAt(n, raw, b);
  }

  /**
   `buildClassTargets`: `count` split across godan, ichidan and irregular
   in proportion to their weights, each share rounded down or up, by
   largest remainder.
   */
  function BuildClassTargets(count: int, bias: ClassBias): (r: Targets)
    ensures count <= 0 ==> r == Targets(0, 0, 0)
    ensures r.Sum() == Max(0, count)
    ensures r.godan >= 0 && r.ichidan >= 0 && r.irregular >= 0
  {
    if count <= 0 then Targets(0, 0, 0)
    else LargestRemainder(count, SharesOf(count, bias))
  }

  /** Each class's target is its exact share rounded down or up. */
  lemma TargetsNearShares(count: int, bias: ClassBias)
    requires count > 0
    ensures var r := BuildClassTargets(count, bias);
      && Raw(count, 0, bias).Floor <= r.godan <= Raw(count, 0, bias).Floor + 1
      && Raw(count, 1, bias).Floor <= r.ichidan <= Raw(count, 1, bias).Floor + 1
      && Raw(count, 2, bias).Floor <= r.irregular <= Raw(count, 2, bias).Floor + 1
  {
    var raw := SharesOf(count, bias);
    assert raw.For(0) == raw.godan && raw.For(1) == raw.ichidan && raw.For(2) == raw.irregular;
  }

  /** Between two classes, the one with the larger fractional share gets its extra item first. */
  lemma TargetsLargestRemainder(count: int, bias: ClassBias, a: nat, b: nat)
    requires count > 0 && a < 3 && b < 3
    requires Frac(Raw(count, a, bias)) > Frac(Raw(count, b, bias))
    ensures BuildClassTargets(count, bias).For(b) > Raw(count, b, bias).Floor ==>
      BuildClassTargets(count, bias).For(a) > Raw(count, a, bias).Floor
  {
    var raw := SharesOf(count, bias);
    LargerFractionFirst(count, raw, a, b);
  }

  // ---------------------------------------------------------------------
  // Picking by class

  function ClassName(verbClass: nat): string
  {
    if verbClass == 0 then "godan" else if verbClass == 1 then "ichidan" else "irregular"
  }

  /** The pool's items whose verb is of the class. */
  function ClassPool(pool: seq<Item>, verbs: Verbs, name: string): (r: seq<Item>)
    ensures SubsetOf(r, pool)
    ensures forall x :: x in r ==> VerbClass(verbs, x.pair.verbId) == name
  {
    Filter(pool, (x: Item) => VerbClass(verbs, x.pair.verbId) == name)
  }

  /** One class's share: picked from the class pool when its target is positive. */
  function PickClass(queue: seq<Item>, pool: seq<Item>, verbs: Verbs, targets: Targets, verbClass: nat, rng: Rng)
    : (r: (seq<Item>, Rng))
    ensures Extends(queue, r.0, pool)
    ensures |r.0| - |queue| <= Max(0, targets.For(verbClass))
  {
    if targets.For(verbClass) <= 0 then (queue, rng)
    else
      var r := PickFromPool(queue, ClassPool(pool, verbs, ClassName(verbClass)), targets.For(verbClass), rng);
      ExtendsTrans(queue, r.0, r.0, ClassPool(pool, verbs, ClassName(verbClass)), pool, pool);
      r
  }

  /** Tops the picks up from the whole pool when the earlier picks fell short of `wanted`. */
  function TopUp(start: seq<Item>, queue: seq<Item>, pool: seq<Item>, wanted: int, rng: Rng): (r: (seq<Item>, Rng))
    requires Extends(start, queue, pool)
    ensures Extends(start, r.0, pool)
    ensures |queue| - |start| <= wanted ==> |r.0| - |start| <= wanted
    ensures |queue| - |start| >= wanted ==> r.0 == queue
  {
    if |queue| - |start| < wanted then
      var r := PickFromPool(queue, pool, wanted - (|queue| - |start|), rng);
      ExtendsTrans(start, queue, r.0, pool, pool, pool);
      r
    else (queue, rng)
  }

  /** The three class picks in turn: godan, ichidan, irregular. */
  function PickClasses(queue: seq<Item>, pool: seq<Item>, verbs: Verbs, targets: Targets, rng: Rng)
    : (r: (seq<Item>, Rng))
    requires targets.godan >= 0 && targets.ichidan >= 0 && targets.irregular >= 0
    ensures Extends(queue, r.0, pool)
    ensures |r.0| - |queue| <= targets.Sum()
  {
    var (q1, g1) := PickClass(queue, pool, verbs, targets, 0, rng);
    var (q2, g2) := PickClass(q1, pool, verbs, targets, 1, g1);
    ExtendsTrans(queue, q1, q2, pool, pool, pool);
    var (q3, g3) := PickClass(q2, pool, verbs, targets, 2, g2);
    ExtendsTrans(queue, q2, q3, pool, pool, pool);
    (q3, g3)
  }

  /**
   `pickWithClassTargets`: `count` items split across the verb classes by
   `buildClassTargets`, each class from its own part of the pool, then
   topped up from the whole pool.
   */
  function PickWithClassTargets(queue: seq<Item>, pool: seq<Item>, count: int, verbs: Verbs, bias: ClassBias, rng: Rng)
    : (r: (seq<Item>, Rng))
    ensures Extends(queue, r.0, pool)
    ensures |r.0| - |queue| <= Max(0, count)
  {
    if count <= 0 then (queue, rng)
    else
      var (q3, g3) := PickClasses(queue, pool, verbs, BuildClassTargets(count, bias), rng);
      TopUp(queue, q3, pool, count, g3)
  }

  /** A class with its bias amount. */
  predicate MoreBias(a: (string, int), b: (string, int))
  {
    a.1 >= b.1
  }

  lemma MoreBiasIsTotal()
    ensures TotalPreorder(MoreBias)
  {
  }

  /** The entries with a positive amount, in order. */
  function Positive(entries: seq<(string, int)>): (r: seq<(string, int)>)
    ensures forall e :: e in r <==> e in entries && e.1 > 0
    ensures IsSubsequence(r, entries)
    ensures (forall e :: e in entries ==> e.1 <= 0) ==> r == []
  {
    var p := (e: (string, int)) => e.1 > 0;
    FilterOrder(entries, p);
    Filter(entries, p)
  }

  /** Each class with its bias (at least 0), in the order irregular, godan, ichidan. */
  function BiasEntries(bias: ClassBias): seq<(string, int)>
  {
    [("irregular", Max(0, bias.irregular)), ("godan", Max(0, bias.godan)), ("ichidan", Max(0, bias.ichidan))]
  }

  /** The classes with positive bias, largest first, ties in the order irregular, godan, ichidan. */
  function BiasOrder(bias: ClassBias): (r: seq<(string, int)>)
    ensures SortedBy(r, MoreBias)
    ensures multiset(r) == multiset(Positive(BiasEntries(bias)))
    ensures forall e :: e in r <==> e in BiasEntries(bias) && e.1 > 0
    ensures bias.godan <= 0 && bias.ichidan <= 0 && bias.irregular <= 0 ==> r == []
  {
    var positive := Positive(BiasEntries(bias));
    MoreBiasIsTotal();
    SortSorted(positive, MoreBias);
    assert forall e :: e in Sort(positive, MoreBias) <==> e in positive by {
      forall e ensures e in Sort(positive, MoreBias) <==> e in positive {
        SortMembers(positive, MoreBias, e);
      }
    }
    Sort(positive, MoreBias)
  }

  /** The biased picks, one class after another, while fewer than `wanted` are picked. */
  function BiasLoop(start: seq<Item>, queue: seq<Item>, entries: seq<(string, int)>, pool: seq<Item>,
                    wanted: int, verbs: Verbs, rng: Rng): (r: (seq<Item>, Rng))
    requires Extends(start, queue, pool) && |queue| - |start| <= wanted
    ensures Extends(start, r.0, pool)
    ensures |r.0| - |start| <= wanted
    decreases |entries|
  {
    if |entries| == 0 then (queue, rng)
    else
      var picked := |queue| - |start|;
      if picked >= wanted then BiasLoop(start, queue, entries[1..], pool, wanted, verbs, rng)
      else
        var classPool := ClassPool(pool, verbs, entries[0].0);
        var (q1, g1) := PickFromPool(queue, classPool, Min(entries[0].1, wanted - picked), rng);
        ExtendsTrans(start, queue, q1, pool, classPool, pool);
        BiasLoop(start, q1, entries[1..], pool, wanted, verbs, g1)
  }

  /**
   `pickWithClassBias`: first up to each biased class's amount from that
   class (largest bias first), then the rest of `count` from the whole pool.
   */
  function PickWithClassBias(queue: seq<Item>, pool: seq<Item>, count: int, verbs: Verbs, bias: ClassBias, rng: Rng)
    : (r: (seq<Item>, Rng))
    ensures Extends(queue, r.0, pool)
    ensures |r.0| - |queue| <= Max(0, count)
  {
    if count <= 0 then (queue, rng)
    else
      var (q1, g1) := BiasLoop(queue, queue, BiasOrder(bias), pool, count, verbs, rng);
      TopUp(queue, q1, pool, count, g1)
  }

  /** Without any class bias, biased picking is plain picking from the whole pool. */
  lemma NoBiasIsPlainPick(queue: seq<Item>, pool: seq<Item>, count: int, verbs: Verbs, bias: ClassBias, rng: Rng)
    requires bias.godan <= 0 && bias.ichidan <= 0 && bias.irregular <= 0
    ensures PickWithClassBias(queue, pool, count, verbs, bias, rng).0 == PickFromPool(queue, pool, count, rng).0
  {
    assert BiasOrder(bias) == [];
  }
}
