/** Choosing runners: the jump consistent hash, and one round of each placer over the runner list. */
module JumpHash {
  import opened Words

  const MULTIPLIER: nat := 2862933555777941757
  const TWO31: nat := 0x8000_0000
  const TWO33: nat := 0x2_0000_0000
  const TWO63: nat := 0x8000_0000_0000_0000

  // ------------------------------------------------------------------------ jump hash

  function NextKey(key: u64): u64 { (key * MULTIPLIER + 1) % TWO64 }

  /** `j = (b + 1) * int64((1<<31)/(key>>33) + 1)`, unless the divisor is zero, which panics. */
  function Jump(key: u64, b: nat): (j: Option<nat>)
    ensures j.Some? ==> j.value >= 2 * (b + 1)
  {
    var d := key / TWO33;
    if d == 0 then None
    else
      Quotient(d);
      Doubles(b + 1, TWO31 / d + 1);
      Some((b + 1) * (TWO31 / d + 1))
  }

  /** The jump by inequalities: a zero divisor panics, and otherwise the bucket count grows by one more
      than the number of times the divisor goes into 2^31. */
  lemma JumpMeans(key: u64, b: nat)
    ensures Jump(key, b).None? <==> key < TWO33
    ensures Jump(key, b).Some? ==> exists q: nat ::
      && Jump(key, b).value == (b + 1) * (q + 1)
      && q * (key / TWO33) <= TWO31 < (q + 1) * (key / TWO33)
  {
    if key >= TWO33 {
      var d := key / TWO33;
      var q := TWO31 / d;
      Division(TWO31, d);
      assert Jump(key, b).value == (b + 1) * (q + 1);
    }
  }

  lemma Division(x: nat, d: nat)
    requires d > 0
    ensures (x / d) * d <= x < (x / d + 1) * d
  {
    assert x == d * (x / d) + x % d;
    assert (x / d + 1) * d == (x / d) * d + d;
  }

  lemma Quotient(d: nat)
    requires 0 < d < TWO31
    ensures 1 <= TWO31 / d <= TWO31
  {
  }

  lemma Doubles(x: nat, y: nat)
    requires y >= 2
    ensures x * y >= 2 * x
  {
  }

  /** The bucket numbers that a key jumps to, one after another, however many buckets there are. */
  function Landing(key: u64, k: nat): Option<nat> {
    if k == 0 then Some(0)
    else
      var p := Landing(key, k - 1);
      if p.None? then None else Jump(Iterated(key, k), p.value)
  }

  function Iterated(key: u64, k: nat): u64 { if k == 0 then key else NextKey(Iterated(key, k - 1)) }

  /** Landings at least double: the k-th is no less than `2^(k+1) - 2`. */
  lemma {:induction false} LandingsDouble(key: u64, k: nat)
    ensures Landing(key, k).Some? ==> Landing(key, k).value + 2 >= Pow2(k + 1)
  {
    if k > 0 { LandingsDouble(key, k - 1); }
  }

  function Pow2(k: nat): nat { if k == 0 then 1 else 2 * Pow2(k - 1) }

  /** Once a divisor was zero there is no further landing; before that they increase. */
  lemma {:induction false} LandingsIncrease(key: u64, k: nat, m: nat)
    requires k <= m && Landing(key, m).Some?
    ensures Landing(key, k).Some? && Landing(key, k).value <= Landing(key, m).value
    ensures k < m ==> Landing(key, k).value < Landing(key, m).value
    decreases m - k
  {
    if k < m { LandingsIncrease(key, k, m - 1); }
  }

  /** A bucket of `n`: the last landing below `n`, the next one being defined and not below. */
  ghost predicate IsBucket(key: u64, n: int, b: int) {
    exists k: nat :: IsLastBelow(key, n, b, k)
  }

  ghost predicate IsLastBelow(key: u64, n: int, b: int, k: nat) {
    && Landing(key, k) == Some(b) && b < n
    && Landing(key, k + 1).Some? && Landing(key, k + 1).value >= n
  }

  /** Some landing below `n` is followed by a division by zero. */
  ghost predicate Panics(key: u64, n: int) { exists k: nat :: IsPanic(key, n, k) }

  ghost predicate IsPanic(key: u64, n: int, k: nat) {
    Landing(key, k).Some? && Landing(key, k).value < n && Landing(key, k + 1).None?
  }

  /** A key with a bucket does not panic. */
  lemma BucketOrPanic(key: u64, n: int, b: int)
    requires IsBucket(key, n, b)
    ensures !Panics(key, n)
  {
    hide Landing;
    var k: nat :| IsLastBelow(key, n, b, k);
    forall m: nat ensures !IsPanic(key, n, m) {
      if m <= k {
        LandingsIncrease(key, m + 1, k + 1);
      } else if Landing(key, m).Some? {
        LandingsIncrease(key, k + 1, m);
      }
    }
  }

  /** The key whose successor is zero: with any buckets at all the hash divides by zero. */
  lemma PanicKey(n: int)
    requires n >= 1
    ensures Panics(2313046976756913067, n)
  {
    var key: u64 := 2313046976756913067;
    assert NextKey(key) == 0;
    assert Iterated(key, 0) == key && Iterated(key, 1) == NextKey(Iterated(key, 0));
    assert Landing(key, 0) == Some(0) && Landing(key, 1) == Jump(Iterated(key, 1), 0);
    assert IsPanic(key, n, 0);
  }

  /** `jumpConsistentHash`, for any int32 number of buckets; `None` is the division by zero.
      No product leaves int64, and the loop takes logarithmically many turns. */
  method JumpConsistentHash(key: u64, n: int) returns (r: Option<int>, turns: nat)
    requires -(TWO31 as int) <= n < TWO31
    ensures n <= 0 ==> r == Some(-1) && turns == 0
    ensures n > 0 && r.Some? ==> 0 <= r.value < n && IsBucket(key, n, r.value)
    ensures r.None? <==> Panics(key, n)
    ensures n >= 0 ==> Pow2(turns) <= n + 1
  {
    hide NextKey, Jump;
    var b, j: int, key' := -1, 0, key;
    turns := 0;
    while j < n
      invariant key' == Iterated(key, turns)
      invariant turns == 0 ==> b == -1
      invariant turns > 0 ==> n > 0 && b < n && Landing(key, turns - 1) == Some(b)
      invariant Landing(key, turns) == Some(j)
      invariant b < j
      invariant n >= 0 ==> Pow2(turns) <= n + 1
      decreases n - j
    {
      b := j;
      key' := NextKey(key');
      LandingsDouble(key, turns);
      turns := turns + 1;
      var next := Jump(key', b);
      if next.None? {
        assert IsPanic(key, n, turns - 1);
        return None, turns;
      }
      NoOverflow(key', b);
      j := next.value;
    }
    assert turns > 0 ==> IsLastBelow(key, n, b, turns - 1);
    if turns > 0 { BucketOrPanic(key, n, b); }
    return Some(b), turns;
  }

  lemma NoOverflow(key: u64, b: nat)
    requires b + 1 < TWO31 && Jump(key, b).Some?
    ensures b < Jump(key, b).value < TWO63
  {
    var d := key / TWO33;
    Quotient(d);
    Product(b + 1, TWO31 / d + 1);
  }

  lemma {:induction false} Larger(x: nat, z: nat, y: nat)
    requires x <= z
    ensures x * y <= z * y
  {
    assert z * y == x * y + (z - x) * y;
  }

  lemma Product(x: nat, y: nat)
    requires x < TWO31 && y <= TWO31 + 1
    ensures x * y <= TWO31 * (TWO31 + 1)
  {
    Larger(x, TWO31, y);
    Larger(y, TWO31 + 1, TWO31);
    assert TWO31 * y == y * TWO31 && (TWO31 + 1) * TWO31 == TWO31 * (TWO31 + 1);
  }

  lemma LaterLanding(key: u64, n: int, m: int, b: int, c: int, k: nat, l: nat)
    requires n <= m && IsLastBelow(key, n, b, k) && IsLastBelow(key, m, c, l)
    ensures k <= l && (k < l ==> n <= c)
  {
    hide Landing;
    if l < k {
      LandingsIncrease(key, l + 1, k);
    } else if k < l {
      LandingsIncrease(key, k + 1, l);
    }
  }

  /** More buckets move a key only to a new bucket. */
  lemma MinimalMovement(key: u64, n: int, m: int, b: int, c: int)
    requires n <= m && IsBucket(key, n, b) && IsBucket(key, m, c)
    ensures c == b || n <= c < m
    ensures m == n + 1 ==> c == b || c == n
    ensures m == n ==> c == b
  {
    hide Landing;
    var k: nat :| IsLastBelow(key, n, b, k);
    var l: nat :| IsLastBelow(key, m, c, l);
    LaterLanding(key, n, m, b, c, k, l);
  }

  /** Which of three buckets a key gets depends on the key: on whether its successor is above the middle. */
  lemma ThreeBuckets(key: u64, b: int)
    requires IsBucket(key, 3, b)
    ensures b == if NextKey(key) >= 0x4000_0001 * TWO33 then 2 else 0
  {
    var k: nat :| IsLastBelow(key, 3, b, k);
    var next := NextKey(key);
    assert Iterated(key, 1) == NextKey(Iterated(key, 0)) == next;
    assert Landing(key, 0) == Some(0) && Landing(key, 1) == Jump(next, 0);
    LandingsIncrease(key, 0, k + 1);
    LandingsIncrease(key, 1, k + 1);
    FirstJump(next);
    PowersGrow(k + 1);
    LandingsDouble(key, k);
  }

  lemma {:induction false} PowersGrow(k: nat)
    ensures k >= 3 ==> Pow2(k) >= 8
  {
    if k > 3 {
      PowersGrow(k - 1);
    } else if k == 3 {
      assert Pow2(2) == 2 * Pow2(1);
    }
  }

  lemma FirstJump(key: u64)
    requires key >= TWO33
    ensures Jump(key, 0).Some? && Jump(key, 0).value >= 2
    ensures Jump(key, 0).value == 2 <==> key >= 0x4000_0001 * TWO33
  {
    var d := key / TWO33;
    Above(key, 1);
    Above(key, 0x4000_0001);
    QuotientIsOne(d);
    Quotient(d);
    assert Jump(key, 0).value == 1 * (TWO31 / d + 1);
  }

  lemma Above(key: nat, x: nat)
    ensures key / TWO33 >= x <==> key >= x * TWO33
  {
    assert key == TWO33 * (key / TWO33) + key % TWO33;
  }

  lemma QuotientIsOne(d: nat)
    requires 0 < d < TWO31
    ensures TWO31 / d == 1 <==> d >= 0x4000_0001
  {
    var q := TWO31 / d;
    Division(TWO31, d);
    Quotient(d);
    if q >= 2 { Larger(2, q, d); }
  }

  // -------------------------------------------------------------------- placement rounds

  datatype End = Placed | Busy | Exhausted | Panicked

  /** `(i + 1) % n` for an index in range. */
  function Next(i: nat, n: nat): nat { if i + 1 == n then 0 else i + 1 }

  /** The runner offered the call at turn `j` of a rotation. */
  function Turn(start: nat, n: nat, j: nat): nat
    requires start < n && j <= n
  {
    if start + j < n then start + j else start + j - n
  }

  predicate IsRotation(offers: seq<nat>, start: nat, n: nat) {
    start < n && |offers| <= n && forall j :: 0 <= j < |offers| ==> offers[j] == Turn(start, n, j)
  }

  /** Each runner is offered the call at most once; a round that runs out has offered it to all.
      No offer follows one that was placed. */
  predicate FairRound(n: nat, placed: nat -> bool, offers: seq<nat>, end: End) {
    && (forall i, j :: 0 <= i < j < |offers| ==> offers[i] != offers[j])
    && (forall j :: 0 <= j < |offers| ==> offers[j] < n)
    && (end.Exhausted? ==> forall r: nat :: r < n ==> r in offers)
    && (forall j :: 0 <= j < |offers| ==> (placed(j) <==> end.Placed? && j == |offers| - 1))
    && (end.Placed? ==> |offers| > 0)
  }

  lemma RotationIsFair(n: nat, placed: nat -> bool, offers: seq<nat>, start: nat, end: End)
    requires IsRotation(offers, start, n) && (end.Exhausted? ==> |offers| == n)
    requires forall j :: 0 <= j < |offers| ==> (placed(j) <==> end.Placed? && j == |offers| - 1)
    requires end.Placed? ==> |offers| > 0
    ensures FairRound(n, placed, offers, end)
  {
    if end.Exhausted? {
      forall r: nat | r < n ensures r in offers {
        var j := if r >= start then r - start else r + n - start;
        assert offers[j] == r;
      }
    }
  }

  lemma NobodyToAsk(placed: nat -> bool, end: End)
    requires !end.Placed?
    ensures FairRound(0, placed, [], end)
  {
  }

  /** One round of the consistent-hash placer over `n` runners.  At turn `j` the deadline or
      the context may have ended (`stop(j)`), and `TryExec` says whether the call was placed. */
  method ChRound(key: u64, n: nat, stop: nat -> bool, placed: nat -> bool) returns (offers: seq<nat>, end: End)
    requires n < TWO31
    ensures !end.Panicked? ==> FairRound(n, placed, offers, end)
    ensures end.Busy? ==> stop(|offers|)
    ensures offers != [] ==> IsBucket(key, n, offers[0])
    ensures end.Panicked? <==> Panics(key, n)
    ensures end.Panicked? ==> offers == []
  {
    hide IsBucket, FairRound, Panics;
    offers := [];
    var h, _ := JumpConsistentHash(key, n);
    if h.None? {
      return offers, Panicked;
    }
    if n == 0 {
      NobodyToAsk(placed, Exhausted);
      return offers, Exhausted;
    }
    var i: nat := h.value;
    var j := 0;
    while j < n
      invariant 0 <= j <= n && |offers| == j && i == Turn(h.value, n, j)
      invariant IsRotation(offers, h.value, n)
      invariant forall k :: 0 <= k < j ==> !placed(k)
    {
      if stop(j) {
        RotationIsFair(n, placed, offers, h.value, Busy);
        return offers, Busy;
      }
      offers := offers + [i];
      if placed(j) {
        RotationIsFair(n, placed, offers, h.value, Placed);
        return offers, Placed;
      }
      i := Next(i, n);
      j := j + 1;
    }
    RotationIsFair(n, placed, offers, h.value, Exhausted);
    return offers, Exhausted;
  }

  /** `runners[int(i) % len(runners)]`: past 2^63 the conversion makes the index negative,
      and anything but a multiple of the length panics. */
  function NaiveIndex(i: u64, n: nat): Option<nat>
    requires n > 0
  {
    if i < TWO63 then Some(i % n) else if (TWO64 - i) % n == 0 then Some(0) else None
  }

  lemma NextIndex(i: nat, n: nat)
    requires n > 0
    ensures (i + 1) % n == Next(i % n, n)
  {
    var q, s := i / n, i % n;
    assert i == q * n + s;
    if s + 1 == n {
      assert i + 1 == (q + 1) * n;
      ModOf(q + 1, 0, n);
    } else {
      ModOf(q, s + 1, n);
    }
  }

  lemma {:induction false} ModOf(q: nat, r: nat, n: nat)
    requires r < n
    ensures (q * n + r) % n == r
  {
    if q > 0 {
      ModOf(q - 1, r, n);
      assert q * n + r == ((q - 1) * n + r) + n;
      AddModulus((q - 1) * n + r, n);
    }
  }

  lemma AddModulus(x: nat, n: nat)
    requires n > 0
    ensures (x + n) % n == x % n
  {
    var y := x + n;
    SmallMultiple(n, y / n - x / n - 1);
    assert x == n * (x / n) + x % n && y == n * (y / n) + y % n;
    assert n * (y / n - x / n - 1) == n * (y / n) - n * (x / n) - n;
  }

  lemma SmallMultiple(n: int, a: int)
    ensures -n < n * a < n ==> a == 0
  {
    if a >= 1 && n > 0 {
      assert n * a >= n;
    } else if a <= -1 && n > 0 {
      assert n * a <= -n;
    }
  }

  function Advance(i: u64, k: nat): u64 { (i + k) % TWO64 }

  lemma {:induction false} IndexOfTurn(first: nat, n: nat, j: nat)
    requires n > 0 && j < n
    ensures (first + 1 + j) % n == Turn((first + 1) % n, n, j)
  {
    if j > 0 {
      IndexOfTurn(first, n, j - 1);
      NextIndex(first + j, n);
    }
  }

  /** Counting on by one is going on by one runner. */
  lemma QuietTurn(first: u64, n: nat, j: nat)
    requires n > 0 && j < n && first + n < TWO63
    ensures Advance(first + j, 1) == first + j + 1
    ensures NaiveIndex(first + j + 1, n) == Some(Turn((first + 1) % n, n, j))
  {
    IndexOfTurn(first, n, j);
    hide Turn;
  }

  /** The naive placer counts all its attempts, over all calls, in one counter. */
  class NaivePlacer {
    var rrIndex: u64

    constructor (first: u64)
      ensures rrIndex == first
    {
      rrIndex := first;
    }

    /** One round; `others(j)` attempts of other calls come between turn `j` and the one before.
        Each turn takes the index of its count; a turn that is reached without the deadline panics
        exactly if its count has no index.  Undisturbed, and while the counter stays below 2^63,
        the round is a rotation too. */
    method Round(n: nat, stop: nat -> bool, placed: nat -> bool, others: nat -> nat)
      returns (offers: seq<nat>, end: End)
      modifies this
      ensures |offers| <= n
      ensures forall j :: 0 <= j < |offers| ==>
        && TurnIndex(old(rrIndex), others, n, j) == Some(offers[j]) && offers[j] < n
        && (placed(j) <==> end.Placed? && j == |offers| - 1)
      ensures var k := |offers|; !end.Placed? ==>
        && (end.Exhausted? <==> k == n)
        && (end.Busy? <==> k < n && stop(k))
        && (end.Panicked? <==> k < n && !stop(k) && TurnIndex(old(rrIndex), others, n, k).None?)
      ensures (forall j :: others(j) == 0) && old(rrIndex) + n < TWO63 ==>
        FairRound(n, placed, offers, end) && (!end.Panicked? && rrIndex == old(rrIndex) + |offers|)
    {
      offers := [];
      end := Exhausted;
      ghost var first := rrIndex;
      CountBegins(first, others);
      hide Advance, NaiveIndex, FairRound, CountAt, TurnIndex;
      var j := 0;
      while j < n
        invariant 0 <= j <= n && |offers| == j && end.Exhausted?
        invariant rrIndex == CountAt(first, others, j)
        invariant forall k :: 0 <= k < j ==>
          TurnIndex(first, others, n, k) == Some(offers[k]) && offers[k] < n && !placed(k)
      {
        if stop(j) {
          end := Busy;
          break;
        }
        rrIndex := Advance(rrIndex, 1 + others(j));
        TurnTakes(first, others, n, j);
        var index := NaiveIndex(rrIndex, n);
        if index.None? {
          end := Panicked;
          break;
        }
        offers := offers + [index.value];
        if placed(j) {
          end := Placed;
          break;
        }
        j := j + 1;
      }
      QuietRound(first, others, n, placed, offers, end);
    }
  }

  /** The counter after `j` turns of a round. */
  function CountAt(first: u64, others: nat -> nat, j: nat): u64 {
    if j == 0 then first else Advance(CountAt(first, others, j - 1), 1 + others(j - 1))
  }

  /** The index that turn `j` of a round gets, if its count has one. */
  function TurnIndex(first: u64, others: nat -> nat, n: nat, j: nat): Option<nat>
    requires n > 0
  {
    NaiveIndex(CountAt(first, others, j + 1), n)
  }

  lemma CountBegins(first: u64, others: nat -> nat)
    ensures CountAt(first, others, 0) == first
  {
  }

  lemma TurnTakes(first: u64, others: nat -> nat, n: nat, j: nat)
    requires n > 0
    ensures CountAt(first, others, j + 1) == Advance(CountAt(first, others, j), 1 + others(j))
    ensures TurnIndex(first, others, n, j) == NaiveIndex(CountAt(first, others, j + 1), n)
    ensures TurnIndex(first, others, n, j).Some? ==> TurnIndex(first, others, n, j).value < n
  {
    IndexInRange(CountAt(first, others, j + 1), n);
  }

  lemma QuietIndex(first: u64, others: nat -> nat, n: nat, j: nat)
    requires j < n && first + n < TWO63 && forall i :: others(i) == 0
    ensures TurnIndex(first, others, n, j) == Some(Turn((first + 1) % n, n, j))
  {
    hide NaiveIndex, Turn;
    QuietCount(first, others, j + 1);
    QuietTurn(first, n, j);
  }

  lemma {:induction false} QuietCount(first: u64, others: nat -> nat, j: nat)
    requires first + j < TWO63 && forall i :: others(i) == 0
    ensures CountAt(first, others, j) == first + j
  {
    if j > 0 { QuietCount(first, others, j - 1); }
  }

  /** An undisturbed round is a rotation, and so it is fair. */
  lemma QuietRound(first: u64, others: nat -> nat, n: nat, placed: nat -> bool, offers: seq<nat>, end: End)
    requires |offers| <= n && (end.Exhausted? ==> |offers| == n)
    requires forall j :: 0 <= j < |offers| ==>
      && TurnIndex(first, others, n, j) == Some(offers[j])
      && (placed(j) <==> end.Placed? && j == |offers| - 1)
    requires end.Placed? ==> |offers| > 0
    requires end.Panicked? ==> |offers| < n && TurnIndex(first, others, n, |offers|).None?
    ensures (forall j :: others(j) == 0) && first + n < TWO63 ==>
      && FairRound(n, placed, offers, end) && !end.Panicked?
      && CountAt(first, others, |offers|) == first + |offers|
  {
    hide FairRound, TurnIndex, Turn;
    if !((forall j :: others(j) == 0) && first + n < TWO63) { return; }
    QuietCount(first, others, |offers|);
    if n == 0 {
      NobodyToAsk(placed, end);
    } else {
      forall j | 0 <= j < n ensures TurnIndex(first, others, n, j) == Some(Turn((first + 1) % n, n, j)) {
        QuietIndex(first, others, n, j);
      }
      RotationIsFair(n, placed, offers, (first + 1) % n, end);
    }
  }

  /** A count has no index exactly if, as a negative number, it is no multiple of the length. */
  lemma IndexInRange(i: u64, n: nat)
    requires n > 0
    ensures NaiveIndex(i, n).Some? ==> NaiveIndex(i, n).value < n
    ensures NaiveIndex(i, n).None? <==> i >= TWO63 && (TWO64 - i) % n != 0
  {
  }
}
