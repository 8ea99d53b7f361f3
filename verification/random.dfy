/**
 The random source as explicit data. The engines call a caller-supplied
 `rng()` returning a real in [0, 1); here that source is the finite
 sequence of values it will return, threaded through every call that
 consumes one. An exhausted sequence reads as 0.
 */
module Random {

  /** A value of `rng()`. */
  type Unit = r: real | 0.0 <= r < 1.0

  type Rng = seq<Unit>

  /** One draw: the first value of a non-empty stream, with the rest left over; an exhausted stream reads 0. */
  function Next(rng: Rng): (r: (Unit, Rng))
    ensures |rng| > 0 ==> rng == [r.0] + r.1
    ensures |r.1| == if |rng| > 0 then |rng| - 1 else 0
    ensures |rng| == 0 ==> r.0 == 0.0
  {
    if |rng| == 0 then (0.0, []) else (rng[0], rng[1..])
  }

  lemma ScaleBelow(u: Unit, n: nat)
    requires n > 0
    ensures 0.0 <= u * n as real < n as real
  {
    assert u * n as real <= u * n as real;
    assert (1.0 - u) * n as real > 0.0;
  }

  /** The floor of a value in [0, n) is a position below n. */
  lemma FloorBelow(x: real, n: int)
    requires 0.0 <= x < n as real
    ensures 0 <= x.Floor < n
  {
    assert x.Floor as real <= x;
  }

  /**
   `randomIndex(max, rng)`: `floor(rng() * max)`, a position below `max`;
   for `max <= 1` the source answers 0 without drawing.
   */
  function RandomIndex(max: int, rng: Rng): (r: (nat, Rng))
    ensures max <= 1 ==> r == (0, rng)
    ensures max > 1 ==> r.0 < max && r.1 == Next(rng).1
  {
    if max <= 1 then (0, rng)
    else
      var (u, rest) := Next(rng);
      ScaleBelow(u, max);
      FloorBelow(u * max as real, max);
      ((u * max as real).Floor, rest)
  }

  /** One step of `shuffle`: positions `i` and `j` exchanged. */
  function Swap<T>(s: seq<T>, i: nat, j: nat): (r: seq<T>)
    requires i < |s| && j < |s|
    ensures |r| == |s| && r[i] == s[j] && r[j] == s[i]
    ensures forall k :: 0 <= k < |s| && k != i && k != j ==> r[k] == s[k]
    ensures multiset(r) == multiset(s)
  {
    s[i := s[j]][j := s[i]]
  }

  /** The Fisher–Yates loop of `shuffle` from position `i` down to 1. */
  function ShuffleFrom<T>(s: seq<T>, i: int, rng: Rng): (r: (seq<T>, Rng))
    requires i < |s|
    ensures multiset(r.0) == multiset(s) && |r.0| == |s|
    decreases i
  {
    if i <= 0 then (s, rng)
    else
      var (j, rest) := RandomIndex(i + 1, rng);
      ShuffleFrom(Swap(s, i, j), i - 1, rest)
  }

  /** `shuffle(list, rng)`: a permutation of `list`. */
  function Shuffle<T>(s: seq<T>, rng: Rng): (r: (seq<T>, Rng))
    ensures multiset(r.0) == multiset(s) && |r.0| == |s|
  {
    ShuffleFrom(s, |s| - 1, rng)
  }

  lemma ShuffleMembers<T>(s: seq<T>, rng: Rng, x: T)
    ensures x in Shuffle(s, rng).0 <==> x in s
  {
    assert x in Shuffle(s, rng).0 <==> x in multiset(Shuffle(s, rng).0);
    assert x in s <==> x in multiset(s);
  }

  /** The draw clamped to [0, 0.999999]. */
  function ClampDraw(rand: real): (c: Unit)
    ensures c <= 0.999999
    ensures 0.0 <= rand <= 0.999999 ==> c == rand
  {
    if rand < 0.0 then 0.0 else if rand > 0.999999 then 0.999999 else rand
  }

  /**
   `getRequeueInsertIndex(queueLength, rng)`: where a missed card is
   reinserted into a running queue. The value drawn is clamped first, so
   the position is never 0 and never past the end.
   */
  function RequeueInsertIndex(queueLength: int, rand: real): (r: int)
    ensures queueLength <= 0 ==> r == 0
    ensures queueLength > 0 ==> 1 <= r <= queueLength
  {
    if queueLength <= 0 then 0
    else
      ScaleBelow(ClampDraw(rand), queueLength);
      FloorBelow(ClampDraw(rand) * queueLength as real, queueLength);
      (ClampDraw(rand) * queueLength as real).Floor + 1
  }

  /** A larger draw never moves the insertion point earlier. */
  lemma RequeueMonotone(queueLength: int, a: real, b: real)
    requires a <= b
    ensures RequeueInsertIndex(queueLength, a) <= RequeueInsertIndex(queueLength, b)
  {
    if queueLength > 0 {
      var n := queueLength as real;
      ClampMonotone(a, b);
      ScaleMonotone(ClampDraw(a), ClampDraw(b), n);
      FloorMonotone(ClampDraw(a) * n, ClampDraw(b) * n);
    }
  }

  lemma ClampMonotone(a: real, b: real)
    requires a <= b
    ensures ClampDraw(a) <= ClampDraw(b)
  {
  }

  lemma ScaleMonotone(a: real, b: real, n: real)
    requires a <= b && n >= 0.0
    ensures a * n <= b * n
  {
    assert b * n - a * n == (b - a) * n;
  }

  lemma FloorMonotone(x: real, y: real)
    requires x <= y
    ensures x.Floor <= y.Floor
  {
  }
}
