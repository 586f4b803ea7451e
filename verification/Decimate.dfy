/** Down-sampling of container statistics, in place, by averaging over windows of time. */
module Decimate {
  import opened Words
  import opened SeqSum

  datatype Name = Name(text: string)

  /** One sample: nanoseconds since the epoch, and counters by name. */
  datatype Stat = Stat(time: int, metrics: map<Name, u64>)

  // -------------------------------------------------------------------------- average

  /** Division of signed integers, truncating toward zero. */
  function Quot(a: int, b: int): int
    requires b > 0
  {
    if a >= 0 then a / b else -((-a) / b)
  }

  /** The sum of the shares that `l` samples contribute to their mean time. */
  function TimeShares(s: seq<Stat>, l: int): int
    requires l > 0
  {
    if s == [] then 0 else TimeShares(s[..|s| - 1], l) + Quot(s[|s| - 1].time, l)
  }

  function MetricOf(s: Stat, k: Name): nat { if k in s.metrics then s.metrics[k] else 0 }

  function MetricSum(s: seq<Stat>, k: Name): nat {
    if s == [] then 0 else MetricSum(s[..|s| - 1], k) + MetricOf(s[|s| - 1], k)
  }

  function MetricKeys(s: seq<Stat>): set<Name> {
    if s == [] then {} else MetricKeys(s[..|s| - 1]) + s[|s| - 1].metrics.Keys
  }

  function Wrap(n: nat): u64 { n % TWO64 }

  /** The mean of a block of samples; a single sample stands for itself. */
  function Mean(s: seq<Stat>): Stat
    requires s != []
  {
    if |s| == 1 then s[0]
    else Stat(TimeShares(s, |s|), map k | k in MetricKeys(s) :: Wrap(MetricSum(s, k)) / |s|)
  }

  function At(m: map<Name, u64>, k: Name): u64 { if k in m then m[k] else 0 }

  function Merged(sums: map<Name, u64>, more: map<Name, u64>): map<Name, u64> {
    map k | k in sums.Keys + more.Keys :: Add64(At(sums, k), At(more, k))
  }

  /** Half-way through adding `more`: the keys in `todo` are still missing. */
  ghost predicate Partly(sums: map<Name, u64>, more: map<Name, u64>, todo: set<Name>, r: map<Name, u64>) {
    && r.Keys == sums.Keys + (more.Keys - todo)
    && forall k :: k in r ==> r[k] == if k in more && k !in todo then Merged(sums, more)[k] else sums[k]
  }

  lemma PartlyStep(sums: map<Name, u64>, more: map<Name, u64>, todo: set<Name>, r: map<Name, u64>, k: Name)
    requires Partly(sums, more, todo, r) && k in todo && k in more
    ensures Partly(sums, more, todo - {k}, r[k := Add64(At(r, k), more[k])])
  {
    hide Add64;
    assert At(r, k) == At(sums, k);
    assert Merged(sums, more)[k] == Add64(At(sums, k), more[k]);
  }

  lemma PartlyEnds(sums: map<Name, u64>, more: map<Name, u64>, r: map<Name, u64>)
    requires Partly(sums, more, {}, r)
    ensures r == Merged(sums, more)
  {
    hide Add64;
    forall k | k in r ensures r[k] == Merged(sums, more)[k] {
      if k !in more { AddNothing(sums[k]); }
    }
  }

  /** `for k, v := range sample.Metrics { s.Metrics[k] += v }`. */
  method AddMetrics(sums: map<Name, u64>, more: map<Name, u64>) returns (r: map<Name, u64>)
    ensures r == Merged(sums, more)
  {
    r := sums;
    var todo := more.Keys;
    assert Partly(sums, more, todo, r);
    hide *;
    while todo != {}
      invariant todo <= more.Keys
      invariant Partly(sums, more, todo, r)
      decreases |todo|
    {
      var k :| k in todo;
      PartlyStep(sums, more, todo, r, k);
      r := r[k := Add64(At(r, k), more[k])];
      todo := todo - {k};
    }
    PartlyEnds(sums, more, r);
  }

  lemma AddNothing(v: u64)
    ensures Add64(v, 0) == v
  {
  }

  /** The running sums of a block of samples, wrapped. */
  ghost predicate SumsOf(metrics: map<Name, u64>, s: seq<Stat>) {
    metrics.Keys == MetricKeys(s) && forall k :: k in metrics ==> metrics[k] == Wrap(MetricSum(s, k))
  }

  lemma {:induction false} UnusedSumsToZero(s: seq<Stat>, k: Name)
    requires k !in MetricKeys(s)
    ensures MetricSum(s, k) == 0
  {
    if s != [] { UnusedSumsToZero(s[..|s| - 1], k); }
  }

  lemma WrappedAdd(total: nat, v: u64)
    ensures Add64(Wrap(total), v) == Wrap(total + v)
  {
  }

  lemma SumsGrow(metrics: map<Name, u64>, s: seq<Stat>, x: Stat)
    requires SumsOf(metrics, s)
    ensures SumsOf(Merged(metrics, x.metrics), s + [x])
  {
    hide Add64, Wrap;
    assert (s + [x])[..|s|] == s;
    forall k | k in metrics.Keys + x.metrics.Keys
      ensures Add64(At(metrics, k), At(x.metrics, k)) == Wrap(MetricSum(s + [x], k))
    {
      WrappedAdd(MetricSum(s, k), At(x.metrics, k));
      if k !in metrics {
        UnusedSumsToZero(s, k);
        ZeroWraps();
      }
    }
  }

  lemma ZeroWraps()
    ensures Wrap(0) == 0
  {
  }

  lemma FirstSums(x: Stat)
    ensures SumsOf(x.metrics, [x])
  {
    assert [x][..0] == [];
  }

  lemma MeanIs(samples: seq<Stat>, t: int, metrics: map<Name, u64>)
    requires |samples| > 1 && t == TimeShares(samples, |samples|) && SumsOf(metrics, samples)
    ensures Mean(samples) == Stat(t, map k | k in metrics :: metrics[k] / |samples|)
  {
    hide Quot, Wrap, MetricSum, MetricKeys;
  }

  /** `average`: sums into the map of the first sample, then divides. */
  method Average(samples: seq<Stat>) returns (r: Option<Stat>)
    ensures r == if samples == [] then None else Some(Mean(samples))
  {
    hide Quot, Wrap, Add64, MetricSum, MetricKeys, Merged;
    var l := |samples|;
    if l == 0 {
      return None;
    } else if l == 1 {
      return Some(samples[0]);
    }
    var metrics := samples[0].metrics;
    var t := Quot(samples[0].time, l);
    FirstSums(samples[0]);
    assert samples[..1] == [samples[0]] && samples[..1][..0] == [];
    var i := 1;
    while i < l
      invariant 1 <= i <= l
      invariant t == TimeShares(samples[..i], l)
      invariant SumsOf(metrics, samples[..i])
    {
      assert samples[..i + 1] == samples[..i] + [samples[i]];
      assert samples[..i + 1][..i] == samples[..i];
      t := t + Quot(samples[i].time, l);
      SumsGrow(metrics, samples[..i], samples[i]);
      metrics := AddMetrics(metrics, samples[i].metrics);
      i := i + 1;
    }
    assert samples[..l] == samples;
    MeanIs(samples, t, metrics);
    return Some(Stat(t, map k | k in metrics :: metrics[k] / l));
  }

  predicate Sorted(s: seq<Stat>) { forall i, j :: 0 <= i < j < |s| ==> s[i].time <= s[j].time }

  predicate AllNatural(s: seq<Stat>) { forall i :: 0 <= i < |s| ==> s[i].time >= 0 }

  /** The mean is that of all samples, up to the truncation of each share toward zero. */
  lemma MeanOfTimes(s: seq<Stat>)
    requires s != []
    ensures var total, slack := Sum(s, (x: Stat) => x.time), |s| * (|s| - 1);
      && total - slack <= |s| * Mean(s).time <= total + slack
      && (AllNatural(s) ==> |s| * Mean(s).time <= total)
  {
    var f := (x: Stat) => x.time;
    if |s| == 1 {
      assert s[..0] == [];
      assert Sum(s, f) == Sum(s[..0], f) + f(s[0]);
    } else {
      SharesSum(s, |s|, f);
    }
  }

  lemma {:induction false} SharesSum(s: seq<Stat>, l: int, f: Stat -> int)
    requires l > 0 && forall i :: 0 <= i < |s| ==> f(s[i]) == s[i].time
    ensures Sum(s, f) - |s| * (l - 1) <= l * TimeShares(s, l) <= Sum(s, f) + |s| * (l - 1)
    ensures AllNatural(s) ==> l * TimeShares(s, l) <= Sum(s, f)
  {
    if s != [] {
      var n := |s| - 1;
      forall i | 0 <= i < n ensures s[..n][i] == s[i] {}
      SharesSum(s[..n], l, f);
      OneShare(s[n].time, l);
      hide Quot;
      Distributes(l, TimeShares(s[..n], l), Quot(s[n].time, l));
      OneMore(n, l - 1);
    }
  }

  lemma Distributes(l: int, a: int, b: int)
    ensures l * (a + b) == l * a + l * b
  {
  }

  /** The quotient is truncated toward zero. */
  lemma OneShare(t: int, l: int)
    requires l > 0
    ensures if t >= 0 then t - l < l * Quot(t, l) <= t else t <= l * Quot(t, l) < t + l
  {
    assert t == l * (t / l) + t % l;
    assert -t == l * ((-t) / l) + (-t) % l;
  }

  /** Each metric of the mean is that of all samples: the wrapped total, divided and rounded down. */
  lemma MeanOfMetrics(s: seq<Stat>, k: Name)
    requires |s| > 1
    ensures k in Mean(s).metrics <==> exists i :: 0 <= i < |s| && k in s[i].metrics
    ensures k in Mean(s).metrics ==>
      var total := Sum(s, (x: Stat) => MetricOf(x, k)) % TWO64;
      |s| * Mean(s).metrics[k] <= total < |s| * Mean(s).metrics[k] + |s|
  {
    var f := (x: Stat) => MetricOf(x, k);
    KeysAreAll(s, k);
    MetricsSum(s, k, f);
    assert Sum(s, (x: Stat) => MetricOf(x, k)) == Sum(s, f);
    Rounded(Wrap(MetricSum(s, k)), |s|);
    hide Quot, TimeShares, MetricSum, MetricKeys, MetricOf, Sum;
  }

  lemma Rounded(x: nat, l: nat)
    requires l > 0
    ensures l * (x / l) <= x < l * (x / l) + l
  {
  }

  lemma {:induction false} KeysAreAll(s: seq<Stat>, k: Name)
    ensures k in MetricKeys(s) <==> exists i :: 0 <= i < |s| && k in s[i].metrics
  {
    if s != [] {
      var n := |s| - 1;
      KeysAreAll(s[..n], k);
      forall i | 0 <= i < n ensures s[..n][i] == s[i] {}
      if k in MetricKeys(s[..n]) {
        var i :| 0 <= i < |s[..n]| && k in s[..n][i].metrics;
        assert k in s[i].metrics;
      }
    }
  }

  lemma {:induction false} MetricsSum(s: seq<Stat>, k: Name, f: Stat -> int)
    requires forall x :: f(x) == MetricOf(x, k)
    ensures MetricSum(s, k) == Sum(s, f)
  {
    if s != [] { MetricsSum(s[..|s| - 1], k, f); }
  }

  /** The mean time lies within the block, up to the truncation of each share. */
  lemma MeanIsWithin(s: seq<Stat>)
    requires s != [] && Sorted(s) && s[0].time >= 0
    ensures s[0].time - |s| < Mean(s).time <= s[|s| - 1].time
  {
    if |s| > 1 {
      SharesWithin(s, |s|, s[0].time, s[|s| - 1].time);
      var l, a, b := |s|, s[0].time, s[|s| - 1].time;
      assert l * (b / l) <= b;
      assert l * (a / l) > a - l;
    }
  }

  lemma {:induction false} SharesWithin(s: seq<Stat>, l: int, low: int, high: int)
    requires l > 0 && 0 <= low && forall i :: 0 <= i < |s| ==> low <= s[i].time <= high
    ensures |s| * (low / l) <= TimeShares(s, l) <= |s| * (high / l)
  {
    if s != [] {
      var n := |s| - 1;
      SharesWithin(s[..n], l, low, high);
      QuotWithin(low, s[n].time, high, l);
      hide Quot;
      OneMore(n, low / l);
      OneMore(n, high / l);
    }
  }

  lemma OneMore(n: nat, x: int)
    ensures (n + 1) * x == n * x + x
  {
  }

  lemma QuotWithin(low: int, t: int, high: int, l: int)
    requires 0 <= low <= t <= high && l > 0
    ensures low / l <= Quot(t, l) <= high / l
  {
    QuotMonotone(low, t, l);
    QuotMonotone(t, high, l);
  }

  lemma QuotMonotone(a: int, b: int, l: int)
    requires 0 <= a <= b && l > 0
    ensures a / l <= b / l
  {
    Scaled(b / l + 1, a / l, l);
  }

  lemma Scaled(p: int, q: int, l: int)
    requires l > 0
    ensures p <= q ==> l * p <= l * q
  {
  }

  // ------------------------------------------------------------------------ reference

  function Window(max: int, s: seq<Stat>): int
    requires max > 0 && s != []
  {
    Quot(s[|s| - 1].time - s[0].time, max)
  }

  /** The index of the window that a time falls into: `(start + b*window, start + (b+1)*window]`,
      except that the first window also holds its start. */
  function Bin(t: int, start: int, window: int): nat {
    if t <= start || window <= 0 then 0 else (t - start - 1) / window
  }

  /** The first sample from `x` on that is later than `limit`. */
  function EndOf(s: seq<Stat>, x: nat, limit: int): (y: nat)
    requires x <= |s|
    ensures x <= y <= |s| && (y < |s| ==> s[y].time > limit)
    ensures forall i :: x <= i < y ==> s[i].time <= limit
    decreases |s| - x
  {
    if x == |s| || s[x].time > limit then x else EndOf(s, x + 1, limit)
  }

  /** Where the block that begins at `x` ends, when it is to become entry `e`. */
  function BlockEnd(max: int, s: seq<Stat>, x: nat, e: nat): (y: nat)
    requires max > 0 && x < |s|
    ensures x <= y <= |s|
  {
    if e == max - 1 then |s|
    else
      var start, window := s[0].time, Window(max, s);
      EndOf(s, x, start + (Bin(s[x].time, start, window) + 1) * window)
  }

  /** The entries from sample `x` on: one mean for each window that holds a sample, the last
      entry taking all that is left. */
  function Blocks(max: int, s: seq<Stat>, x: nat, e: nat): seq<Stat>
    requires max > 0 && x <= |s|
    decreases |s| - x
  {
    if x == |s| then []
    else
      var y := BlockEnd(max, s, x, e);
      if y == x then []   // no window holds the sample: the loop never gets here
      else [Mean(s[x..y])] + Blocks(max, s, y, e + 1)
  }

  function Decimated(max: int, s: seq<Stat>): seq<Stat> {
    if |s| <= max then s else if max <= 0 then [] else Blocks(max, s, 0, 0)
  }

  // ------------------------------------------------------------------- the outer loop

  /** The variables of the outer loop; the samples from `x` on are still unread. */
  datatype Loop = Loop(x: nat, e: nat, current: int)

  /** One turn of the outer loop: it records an entry only if the window held a sample. */
  function Turn(max: int, s: seq<Stat>, l: Loop): Loop
    requires max > 0 && l.x < |s|
  {
    var y := if l.e == max - 1 then |s| else EndOf(s, l.x, l.current + Window(max, s));
    Loop(y, if y > l.x then l.e + 1 else l.e, l.current + Window(max, s))
  }

  /** The loop after `n` turns, or where it ended. */
  function After(max: int, s: seq<Stat>, n: nat): (l: Loop)
    requires max > 0 && s != []
    ensures l.x <= |s|
  {
    if n == 0 then Loop(0, 0, s[0].time)
    else
      var l := After(max, s, n - 1);
      if l.x == |s| then l else Turn(max, s, l)
  }

  ghost predicate Finishes(max: int, s: seq<Stat>)
    requires max > 0 && s != []
  {
    exists n: nat :: After(max, s, n).x == |s|
  }

  /** What a caller can check: the window is not rounded down to nothing, or it does not matter. */
  predicate Halts(max: int, s: seq<Stat>) {
    0 < max < |s| ==> Window(max, s) >= 1 || s[0].time == s[|s| - 1].time || max <= 2
  }

  predicate ToDecimate(max: int, s: seq<Stat>) { 0 < max < |s| && Sorted(s) }

  lemma DivLess(d: int, w: int, n: int)
    requires w > 0
    ensures d / w <= n <==> d < (n + 1) * w
  {
    assert d == w * (d / w) + d % w;
    if d / w <= n {
      Scaled(d / w, n, w);
    } else {
      Scaled(n + 1, d / w, w);
    }
  }

  /** The window number by arithmetic, against the test the loop makes. */
  lemma BinMeans(t: int, start: int, window: int, n: nat)
    requires t >= start && window >= 1
    ensures t <= start + (n + 1) * window <==> Bin(t, start, window) <= n
  {
    if t > start {
      DivLess(t - start - 1, window, n);
    } else {
      Scaled(0, n + 1, window);
    }
  }

  lemma WindowOfSorted(max: int, s: seq<Stat>)
    requires ToDecimate(max, s)
    ensures Window(max, s) >= 0
  {
  }

  /** Turn `n` looks at window `n`, which no unread sample precedes. */
  ghost predicate OnCourse(max: int, s: seq<Stat>, n: nat, l: Loop)
    requires ToDecimate(max, s)
  {
    && l == After(max, s, n) && l.current == s[0].time + n * Window(max, s)
    && l.e <= l.x && l.e <= max
    && (l.x < |s| ==> l.e < max)
    && (l.x < |s| && l.e < max - 1 ==> n <= Bin(s[l.x].time, s[0].time, Window(max, s)))
  }

  /** A turn either records the whole next block or moves on to a later window. */
  lemma CourseKept(max: int, s: seq<Stat>, n: nat, l: Loop)
    requires ToDecimate(max, s) && Halts(max, s) && OnCourse(max, s, n, l) && l.x < |s|
    ensures OnCourse(max, s, n + 1, Turn(max, s, l))
    ensures var y := Turn(max, s, l).x;
      if y > l.x then y == BlockEnd(max, s, l.x, l.e)
      else l.e < max - 1 && n < Bin(s[l.x].time, s[0].time, Window(max, s))
  {
    WindowOfSorted(max, s);
    var start, window := s[0].time, Window(max, s);
    assert (n + 1) * window == n * window + window;
    if l.e < max - 1 {
      var t, y := s[l.x].time, Turn(max, s, l).x;
      if window >= 1 {
        BinMeans(t, start, window, n);
        if y < |s| { BinMeans(s[y].time, start, window, n); }
      } else {
        FirstBlock(max, s, n, l);
      }
    }
  }

  /** A window of no length: only the samples at the very start fall into one. */
  lemma FirstBlock(max: int, s: seq<Stat>, n: nat, l: Loop)
    requires ToDecimate(max, s) && Halts(max, s) && OnCourse(max, s, n, l) && l.x < |s|
    requires Window(max, s) == 0 && l.e < max - 1
    ensures n == 0 && l.x == 0 && l.e == 0
    ensures var y := Turn(max, s, l).x; y == BlockEnd(max, s, 0, 0) && y > 0 && (y == |s| || max == 2)
  {
  }

  lemma {:induction false} Reaches(max: int, s: seq<Stat>, n: nat, l: Loop)
    requires ToDecimate(max, s) && Halts(max, s) && OnCourse(max, s, n, l)
    ensures Finishes(max, s)
    decreases |s| - l.x, if l.x < |s| then Bin(s[l.x].time, s[0].time, Window(max, s)) - n else 0
  {
    if l.x < |s| {
      CourseKept(max, s, n, l);
      Reaches(max, s, n + 1, Turn(max, s, l));
    }
  }

  /** Otherwise the loop finds the second distinct time outside every window, for ever. */
  lemma {:induction false} Stuck(max: int, s: seq<Stat>, n: nat)
    requires ToDecimate(max, s) && !Halts(max, s)
    ensures After(max, s, n).x < |s|
    ensures n > 0 ==> After(max, s, n) == Loop(EndOf(s, 0, s[0].time), 1, s[0].time)
  {
    WindowOfSorted(max, s);
    assert Window(max, s) == 0 && max > 2;
    if n > 0 {
      Stuck(max, s, n - 1);
      hide Window, Halts;
    }
  }

  /** The loop ends exactly on the inputs that `Halts` names. */
  lemma FinishesIffHalts(max: int, s: seq<Stat>)
    requires ToDecimate(max, s)
    ensures Finishes(max, s) <==> Halts(max, s)
  {
    if Halts(max, s) {
      Reaches(max, s, 0, After(max, s, 0));
    } else {
      forall n: nat ensures After(max, s, n).x < |s| { Stuck(max, s, n); }
    }
  }

  /** With nothing to cut down there is no loop that could fail to end. */
  lemma ShortInputHalts(max: int, s: seq<Stat>)
    requires max <= 0 || |s| <= max
    ensures Halts(max, s)
  {
  }

  /** Four samples within three nanoseconds, cut down to three: no end. */
  lemma LoopsForever(m: map<Name, u64>)
    ensures !Finishes(3, [Stat(0, m), Stat(1, m), Stat(1, m), Stat(1, m)])
  {
    FinishesIffHalts(3, [Stat(0, m), Stat(1, m), Stat(1, m), Stat(1, m)]);
  }

  // ------------------------------------------------------------------------ partition

  /** The block boundaries from sample `x` on. */
  function Cuts(max: int, s: seq<Stat>, x: nat, e: nat): seq<nat>
    requires max > 0 && x <= |s|
    decreases |s| - x
  {
    if x == |s| then [x]
    else
      var y := BlockEnd(max, s, x, e);
      if y == x then [x] else [x] + Cuts(max, s, y, e + 1)
  }

  /** Every entry is the mean of one block; blocks follow each other without gap or overlap. */
  ghost predicate IsPartition(s: seq<Stat>, x: nat, out: seq<Stat>, cuts: seq<nat>) {
    && |cuts| == |out| + 1 && cuts[0] == x && cuts[|out|] == |s|
    && (forall i :: 0 <= i < |cuts| ==> cuts[i] <= |s|)
    && (forall i :: 0 <= i < |out| ==> IsBlock(s, out, cuts, i))
  }

  predicate IsBlock(s: seq<Stat>, out: seq<Stat>, cuts: seq<nat>, i: nat)
    requires i < |out| && |cuts| == |out| + 1
  {
    cuts[i] < cuts[i + 1] <= |s| && out[i] == Mean(s[cuts[i]..cuts[i + 1]])
  }

  /** Blocks before the last allowed one are cut exactly where the window changes. */
  ghost predicate CutByWindow(max: int, s: seq<Stat>, cuts: seq<nat>, e: nat)
    requires ToDecimate(max, s)
    requires forall i :: 0 <= i < |cuts| ==> cuts[i] <= |s|
  {
    forall i, k :: 0 <= i < |cuts| - 1 && e + i < max - 1 && cuts[i] <= k < |s| ==>
      (k < cuts[i + 1] <==> BinAt(max, s, k) == BinAt(max, s, cuts[i]))
  }

  function BinAt(max: int, s: seq<Stat>, k: nat): nat
    requires max > 0 && k < |s|
  {
    Bin(s[k].time, s[0].time, Window(max, s))
  }

  /** The sample at `x` lies in a window. */
  predicate Ready(max: int, s: seq<Stat>, x: nat, e: nat)
    requires ToDecimate(max, s)
  {
    x < |s| ==> e < max && (e == max - 1 || Window(max, s) >= 1 || x == e == 0)
  }

  lemma NextBlock(max: int, s: seq<Stat>, x: nat, e: nat)
    requires ToDecimate(max, s) && Halts(max, s) && Ready(max, s, x, e) && x < |s|
    ensures var y := BlockEnd(max, s, x, e); x < y && Ready(max, s, y, e + 1)
  {
    WindowOfSorted(max, s);
    if Window(max, s) >= 1 && e < max - 1 {
      BinMeans(s[x].time, s[0].time, Window(max, s), BinAt(max, s, x));
    }
  }

  lemma BlockIsWindow(max: int, s: seq<Stat>, x: nat, e: nat, k: nat)
    requires ToDecimate(max, s) && Window(max, s) >= 1 && e < max - 1 && x <= k < |s|
    ensures k < BlockEnd(max, s, x, e) <==> BinAt(max, s, k) == BinAt(max, s, x)
  {
    var start, window, b, y := s[0].time, Window(max, s), BinAt(max, s, x), BlockEnd(max, s, x, e);
    BinMeans(s[k].time, start, window, b);
    assert s[x].time <= s[k].time;
    assert BinAt(max, s, k) >= b by {
      if b > 0 { BinMeans(s[x].time, start, window, b - 1); BinMeans(s[k].time, start, window, b - 1); }
    }
    assert y <= k ==> s[y].time <= s[k].time;
  }

  lemma PartitionGrows(s: seq<Stat>, x: nat, y: nat, out: seq<Stat>, cuts: seq<nat>)
    requires x < y <= |s| && IsPartition(s, y, out, cuts)
    ensures IsPartition(s, x, [Mean(s[x..y])] + out, [x] + cuts)
  {
    hide Mean;
    var out', cuts' := [Mean(s[x..y])] + out, [x] + cuts;
    forall i | 0 <= i < |out'| ensures IsBlock(s, out', cuts', i) {
      if i > 0 { assert IsBlock(s, out, cuts, i - 1); }
    }
  }

  lemma CutsGrow(max: int, s: seq<Stat>, x: nat, e: nat, cuts: seq<nat>)
    requires ToDecimate(max, s) && Window(max, s) >= 1 && x < |s| && |cuts| > 0
    requires cuts[0] == BlockEnd(max, s, x, e) && forall i :: 0 <= i < |cuts| ==> cuts[i] <= |s|
    requires CutByWindow(max, s, cuts, e + 1)
    ensures CutByWindow(max, s, [x] + cuts, e)
  {
    hide BinAt, BlockEnd, Window;
    var cuts' := [x] + cuts;
    forall i, k | 0 <= i < |cuts'| - 1 && e + i < max - 1 && cuts'[i] <= k < |s|
      ensures k < cuts'[i + 1] <==> BinAt(max, s, k) == BinAt(max, s, cuts'[i])
    {
      if i == 0 {
        BlockIsWindow(max, s, x, e, k);
      } else {
        assert cuts'[i] == cuts[i - 1] && cuts'[i + 1] == cuts[i];
      }
    }
  }

  lemma {:induction false} BlocksPartition(max: int, s: seq<Stat>, x: nat, e: nat)
    requires ToDecimate(max, s) && Halts(max, s) && x <= |s| && Ready(max, s, x, e)
    ensures IsPartition(s, x, Blocks(max, s, x, e), Cuts(max, s, x, e))
    ensures x < |s| ==> e + |Blocks(max, s, x, e)| <= max
    ensures Window(max, s) >= 1 ==> CutByWindow(max, s, Cuts(max, s, x, e), e)
    decreases |s| - x
  {
    hide Mean, Bin, Window, Sorted, Halts;
    if x < |s| {
      NextBlock(max, s, x, e);
      var y := BlockEnd(max, s, x, e);
      hide BlockEnd;
      BlocksPartition(max, s, y, e + 1);
      PartitionGrows(s, x, y, Blocks(max, s, y, e + 1), Cuts(max, s, y, e + 1));
      if Window(max, s) >= 1 {
        CutsGrow(max, s, x, e, Cuts(max, s, y, e + 1));
      }
      hide CutByWindow;
    }
  }

  /** Down-sampling keeps within the limit, and its entries are the means of a contiguous
      partition of the samples, cut where the window changes. */
  lemma DecimatedIsPartition(max: int, s: seq<Stat>)
    requires ToDecimate(max, s) && Halts(max, s)
    ensures |Decimated(max, s)| <= max
    ensures IsPartition(s, 0, Decimated(max, s), Cuts(max, s, 0, 0))
    ensures Window(max, s) >= 1 ==> CutByWindow(max, s, Cuts(max, s, 0, 0), 0)
  {
    BlocksPartition(max, s, 0, 0);
  }

  // ------------------------------------------------------------------------- in place

  /** The inner loop: how far the samples of one window reach. */
  method EndOfWindow(stats: array<Stat>, x: nat, isLastEntry: bool, limit: int) returns (y: nat)
    requires x <= stats.Length
    ensures y == if isLastEntry then stats.Length else EndOf(stats[..], x, limit)
  {
    y := x;
    while y < stats.Length
      invariant x <= y <= stats.Length
      invariant isLastEntry || EndOf(stats[..], x, limit) == EndOf(stats[..], y, limit)
    {
      if !isLastEntry && stats[y].time > limit {
        break;
      }
      y := y + 1;
    }
  }

  lemma {:induction false} EndOfUnread(s: seq<Stat>, t: seq<Stat>, x: nat, limit: int)
    requires |s| == |t| && x <= |s| && s[x..] == t[x..]
    ensures EndOf(s, x, limit) == EndOf(t, x, limit)
    decreases |s| - x
  {
    if x < |s| {
      assert s[x] == s[x..][0] == t[x..][0] == t[x];
      assert s[x + 1..] == s[x..][1..] && t[x + 1..] == t[x..][1..];
      EndOfUnread(s, t, x + 1, limit);
    }
  }

  lemma CourseBegins(max: int, s: seq<Stat>)
    requires ToDecimate(max, s)
    ensures OnCourse(max, s, 0, Loop(0, 0, s[0].time)) && Progress(max, s, s, 0, 0)
  {
  }

  /** What one turn of the loop reads and writes, up to sample `y`. */
  lemma TurnTo(max: int, s: seq<Stat>, n: nat, l: Loop, y: nat)
    requires ToDecimate(max, s) && Halts(max, s) && OnCourse(max, s, n, l) && l.x < |s|
    requires y == if l.e == max - 1 then |s| else EndOf(s, l.x, l.current + Window(max, s))
    ensures l.e <= l.x <= y <= |s|
    ensures OnCourse(max, s, n + 1, Loop(y, if y > l.x then l.e + 1 else l.e, l.current + Window(max, s)))
    ensures y == l.x ==> n < Bin(s[l.x].time, s[0].time, Window(max, s))
    ensures y > l.x ==> [Mean(s[l.x..y])] + Blocks(max, s, y, l.e + 1) == Blocks(max, s, l.x, l.e)
  {
    hide Mean, Bin, Sorted, Halts, OnCourse;
    CourseKept(max, s, n, l);
    assert Turn(max, s, l).x == y;
    WrittenBehindRead(max, s, n, l);
  }

  lemma WrittenBehindRead(max: int, s: seq<Stat>, n: nat, l: Loop)
    requires ToDecimate(max, s) && OnCourse(max, s, n, l)
    ensures l.e <= l.x
  {
  }

  /** The entries written so far, followed by the blocks of the unread samples, are the result. */
  ghost predicate Progress(max: int, s: seq<Stat>, t: seq<Stat>, x: nat, e: nat)
    requires max > 0
  {
    e <= x <= |s| == |t| && t[x..] == s[x..] && t[..e] + Blocks(max, s, x, e) == Blocks(max, s, 0, 0)
  }

  lemma ProgressMade(max: int, s: seq<Stat>, t: seq<Stat>, x: nat, e: nat, y: nat)
    requires max > 0 && Progress(max, s, t, x, e) && x < y <= |s|
    requires [Mean(s[x..y])] + Blocks(max, s, y, e + 1) == Blocks(max, s, x, e)
    ensures Progress(max, s, t[e := Mean(t[x..y])], y, e + 1)
  {
    hide Mean, Blocks;
    assert t[x..y] == t[x..][..y - x] && s[x..y] == s[x..][..y - x];
    assert t[y..] == t[x..][y - x..] && s[y..] == s[x..][y - x..];
    var t' := t[e := Mean(t[x..y])];
    assert t'[y..] == t[y..] && t'[..e + 1] == t[..e] + [Mean(s[x..y])];
  }

  lemma UnreadUntouched(max: int, s: seq<Stat>, t: seq<Stat>, x: nat, e: nat, limit: int)
    requires max > 0 && Progress(max, s, t, x, e)
    ensures EndOf(t, x, limit) == EndOf(s, x, limit)
  {
    EndOfUnread(t, s, x, limit);
  }

  lemma NothingLeft(max: int, s: seq<Stat>, t: seq<Stat>, e: nat)
    requires max > 0 && Progress(max, s, t, |s|, e)
    ensures t[..e] == Blocks(max, s, 0, 0)
  {
  }

  /** `Decimate`: the entries overwrite the front of the samples, always behind the read
      position; the first `n` are returned. */
  method Decimate(max: int, stats: array<Stat>) returns (n: nat)
    requires Sorted(stats[..]) && Halts(max, stats[..])
    modifies stats
    ensures n <= stats.Length && stats[..n] == Decimated(max, old(stats[..]))
  {
    hide Mean, Quot, Bin, BlockEnd, Blocks, Halts, Sorted, OnCourse, EndOf, Progress;
    ghost var s := stats[..];
    if stats.Length <= max {
      return stats.Length;
    } else if max <= 0 {
      return 0;
    }
    var len := stats.Length;
    var window := Quot(stats[len - 1].time - stats[0].time, max);
    var nextEntry: nat, current, x: nat := 0, stats[0].time, 0;
    ghost var turn: nat := 0;
    CourseBegins(max, s);
    assert stats[..] == s;
    while x < len
      invariant nextEntry <= x <= len && Progress(max, s, stats[..], x, nextEntry)
      invariant OnCourse(max, s, turn, Loop(x, nextEntry, current))
      decreases len - x, if x < len then Bin(s[x].time, s[0].time, window) - turn else 0
    {
      ghost var t := stats[..];
      UnreadUntouched(max, s, t, x, nextEntry, current + window);
      var y := EndOfWindow(stats, x, nextEntry == max - 1, current + window);
      TurnTo(max, s, turn, Loop(x, nextEntry, current), y);
      var entry := Average(stats[x..y]);
      if entry.Some? {
        assert t[x..y] == stats[x..y];
        ProgressMade(max, s, t, x, nextEntry, y);
        stats[nextEntry] := entry.value;
        assert stats[..] == t[nextEntry := Mean(t[x..y])];
        nextEntry := nextEntry + 1;
      }
      x := y;
      current := current + window;
      turn := turn + 1;
    }
    NothingLeft(max, s, stats[..], nextEntry);
    n := nextEntry;
    assert stats[..][..n] == stats[..n];
  }
}
