/** What the stores rely on in Go's `sort.Sort`: a permutation in the given order. */
module GoSort {

  /** A strict weak order, as `sort.Interface` asks for. */
  ghost predicate WeakOrder<T(!new)>(less: (T, T) -> bool) {
    && (forall a, b :: less(a, b) ==> !less(b, a))
    && (forall a, b, c :: !less(a, b) && !less(b, c) ==> !less(a, c))
  }

  ghost predicate InOrder<T>(s: seq<T>, less: (T, T) -> bool) {
    forall i, j :: 0 <= i < j < |s| ==> !less(s[j], s[i])
  }

  method Insert<T(!new)>(s: seq<T>, x: T, less: (T, T) -> bool) returns (t: seq<T>)
    requires WeakOrder(less) && InOrder(s, less)
    ensures InOrder(t, less) && multiset(t) == multiset(s) + multiset{x}
  {
    var i := 0;
    while i < |s| && !less(x, s[i])
      invariant 0 <= i <= |s|
      invariant forall j :: 0 <= j < i ==> !less(x, s[j])
    {
      i := i + 1;
    }
    t := s[..i] + [x] + s[i..];
    assert s == s[..i] + s[i..];
    forall j | i <= j < |s| ensures !less(s[j], x) {
      assert less(x, s[i]) && !less(s[i], x);
      assert j == i || !less(s[j], s[i]);
    }
  }

  method Sort<T(!new)>(s: seq<T>, less: (T, T) -> bool) returns (t: seq<T>)
    requires WeakOrder(less)
    ensures InOrder(t, less) && multiset(t) == multiset(s)
  {
    t := [];
    var i := 0;
    while i < |s|
      invariant 0 <= i <= |s|
      invariant InOrder(t, less) && multiset(t) == multiset(s[..i])
    {
      assert s[..i + 1] == s[..i] + [s[i]];
      t := Insert(t, s[i], less);
      i := i + 1;
    }
    assert s[..i] == s;
  }

  // -------------------------------------------------------- members of a permuted list

  lemma InPrefix<T>(s: seq<T>, i: nat, j: nat)
    requires i <= |s| && j < |s|
    ensures j < i ==> s[j] in s[..i]
  {
    if j < i { assert s[..i][j] == s[j]; }
  }

  lemma TwiceIn<T>(s: seq<T>, i: nat, j: nat)
    requires i < j < |s| && s[i] == s[j]
    ensures multiset(s)[s[i]] >= 2
  {
    assert s == s[..j] + [s[j]] + s[j + 1..] && s[..j][i] == s[i];
  }

  lemma {:induction false} OnceEach<T>(s: seq<T>, x: T)
    requires forall i, j :: 0 <= i < j < |s| ==> s[i] != s[j]
    ensures multiset(s)[x] <= 1
  {
    if s != [] {
      assert s == [s[0]] + s[1..];
      OnceEach(s[1..], x);
      if s[0] == x {
        forall i | 0 <= i < |s[1..]| ensures s[1..][i] != x { assert s[1..][i] == s[i + 1]; }
        assert x !in multiset(s[1..]);
      }
    }
  }
}
