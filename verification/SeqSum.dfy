/** Sums of an integer measure over a sequence: the bookkeeping behind every
    "counter equals the number of live holders" invariant of the project. */
module SeqSum {

  function Sum<T>(s: seq<T>, f: T -> int): int {
    if |s| == 0 then 0 else Sum(s[..|s| - 1], f) + f(s[|s| - 1])
  }

  lemma {:induction false} SumAppend<T>(s: seq<T>, x: T, f: T -> int)
    ensures Sum(s + [x], f) == Sum(s, f) + f(x)
  {
    assert (s + [x])[..|s|] == s;
  }

  /** Replacing one element changes the sum by the difference of the measures. */
  lemma {:induction false} SumUpdate<T>(s: seq<T>, i: nat, x: T, f: T -> int)
    requires i < |s|
    ensures Sum(s[i := x], f) == Sum(s, f) - f(s[i]) + f(x)
  {
    var n := |s| - 1;
    if i == n {
      assert s[i := x][..n] == s[..n];
    } else {
      SumUpdate(s[..n], i, x, f);
      assert s[i := x][..n] == s[..n][i := x];
    }
  }

  /** A pointwise change that no measure notices leaves the sum alone. */
  lemma {:induction false} SumSame<T>(s: seq<T>, t: seq<T>, f: T -> int)
    requires |s| == |t|
    requires forall i :: 0 <= i < |s| ==> f(s[i]) == f(t[i])
    ensures Sum(s, f) == Sum(t, f)
  {
    if |s| > 0 {
      var n := |s| - 1;
      forall i | 0 <= i < n ensures f(s[..n][i]) == f(t[..n][i]) {
        assert s[..n][i] == s[i] && t[..n][i] == t[i];
      }
      SumSame(s[..n], t[..n], f);
    }
  }

  /** With a non-negative measure the sum bounds every member, so it is zero
      only if every member measures zero. */
  lemma {:induction false} SumBounds<T>(s: seq<T>, f: T -> int)
    requires forall i :: 0 <= i < |s| ==> f(s[i]) >= 0
    ensures Sum(s, f) >= 0
    ensures forall i :: 0 <= i < |s| ==> f(s[i]) <= Sum(s, f)
  {
    if |s| > 0 {
      var n := |s| - 1;
      forall i | 0 <= i < n ensures s[..n][i] == s[i] {}
      SumBounds(s[..n], f);
      forall i | 0 <= i < |s| ensures f(s[i]) <= Sum(s, f) {
        if i < n { assert f(s[..n][i]) <= Sum(s[..n], f); }
      }
    }
  }

  /** Measures that are all zero sum to zero. */
  lemma {:induction false} SumZero<T>(s: seq<T>, f: T -> int)
    requires forall i :: 0 <= i < |s| ==> f(s[i]) == 0
    ensures Sum(s, f) == 0
  {
    if |s| > 0 {
      var n := |s| - 1;
      forall i | 0 <= i < n ensures f(s[..n][i]) == 0 { assert s[..n][i] == s[i]; }
      SumZero(s[..n], f);
    }
  }

  /** Measures of zero or one count at most every member. */
  lemma {:induction false} SumAtMost<T>(s: seq<T>, f: T -> int)
    requires forall i :: 0 <= i < |s| ==> 0 <= f(s[i]) <= 1
    ensures 0 <= Sum(s, f) <= |s|
  {
    if |s| > 0 {
      var n := |s| - 1;
      forall i | 0 <= i < n ensures 0 <= f(s[..n][i]) <= 1 { assert s[..n][i] == s[i]; }
      SumAtMost(s[..n], f);
    }
  }

  /** Two measures that agree on the members have the same sum. */
  lemma {:induction false} SameSum<T>(s: seq<T>, f: T -> int, g: T -> int)
    requires forall i :: 0 <= i < |s| ==> f(s[i]) == g(s[i])
    ensures Sum(s, f) == Sum(s, g)
  {
    if |s| > 0 {
      var n := |s| - 1;
      forall i | 0 <= i < n ensures f(s[..n][i]) == g(s[..n][i]) { assert s[..n][i] == s[i]; }
      SameSum(s[..n], f, g);
    }
  }
}
