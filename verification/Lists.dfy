/** Searching, filtering and flattening lists. */
module Lists {

  /** The position of the first `x`, or the length. */
  function IndexOf<T(==)>(s: seq<T>, x: T): (i: nat)
    ensures i <= |s| && (forall j :: 0 <= j < i ==> s[j] != x) && (i < |s| ==> s[i] == x)
  {
    if |s| == 0 || s[0] == x then 0 else 1 + IndexOf(s[1..], x)
  }

  lemma IndexAfter<T>(a: seq<T>, x: T, rest: seq<T>)
    requires x !in a
    ensures IndexOf(a + [x] + rest, x) == |a|
    ensures (a + [x] + rest)[..|a|] == a && (a + [x] + rest)[|a| + 1..] == rest
  {
    var s := a + [x] + rest;
    assert s[|a|] == x;
    assert forall j :: 0 <= j < |a| ==> s[j] == a[j];
  }

  function Flat<T>(parts: seq<seq<T>>): seq<T> {
    if parts == [] then [] else Flat(parts[..|parts| - 1]) + parts[|parts| - 1]
  }

  lemma {:induction false} FlatHead<T>(x: seq<T>, parts: seq<seq<T>>)
    ensures Flat([x] + parts) == x + Flat(parts)
  {
    var n := |parts|;
    if n == 0 {
      assert [x] + parts == [x] && [x][..0] == [];
    } else {
      assert ([x] + parts)[..n] == [x] + parts[..n - 1];
      FlatHead(x, parts[..n - 1]);
    }
  }

  function Filtered<T>(s: seq<T>, keep: T -> bool): seq<T> {
    if s == [] then []
    else
      var n := |s| - 1;
      Filtered(s[..n], keep) + if keep(s[n]) then [s[n]] else []
  }

  lemma {:induction false} FilteredMembers<T>(s: seq<T>, keep: T -> bool, x: T)
    ensures x in Filtered(s, keep) <==> x in s && keep(x)
  {
    if s != [] {
      var n := |s| - 1;
      assert s == s[..n] + [s[n]];
      FilteredMembers(s[..n], keep, x);
    }
  }
}
