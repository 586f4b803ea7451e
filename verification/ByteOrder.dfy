/** Byte strings in the order that Go, Bolt and S3 compare them: lexicographic, by unsigned byte. */
module ByteOrder {
  import opened Words

  type byte = x: int | 0 <= x < 256
  type Bytes = seq<byte>

  /** `bytes.Compare(a, b) < 0`. */
  predicate Less(a: Bytes, b: Bytes) {
    if |b| == 0 then false
    else if |a| == 0 then true
    else if a[0] != b[0] then a[0] < b[0]
    else Less(a[1..], b[1..])
  }

  lemma {:induction false} LessIrreflexive(a: Bytes)
    ensures !Less(a, a)
  {
    if |a| > 0 { LessIrreflexive(a[1..]); }
  }

  lemma {:induction false} LessTransitive(a: Bytes, b: Bytes, c: Bytes)
    requires Less(a, b) && Less(b, c)
    ensures Less(a, c)
  {
    if |a| > 0 && a[0] == b[0] == c[0] { LessTransitive(a[1..], b[1..], c[1..]); }
  }

  lemma {:induction false} LessTotal(a: Bytes, b: Bytes)
    ensures Less(a, b) || a == b || Less(b, a)
  {
    if |a| > 0 && |b| > 0 && a[0] == b[0] {
      LessTotal(a[1..], b[1..]);
      if a[1..] == b[1..] { assert a == [a[0]] + a[1..] && b == [b[0]] + b[1..]; }
    }
  }

  lemma LessAsymmetric(a: Bytes, b: Bytes)
    requires Less(a, b)
    ensures !Less(b, a) && a != b
  {
    LessIrreflexive(a);
    if Less(b, a) { LessTransitive(a, b, a); }
  }

  lemma NotLessTransitive(a: Bytes, b: Bytes, c: Bytes)
    requires !Less(a, b) && !Less(b, c)
    ensures !Less(a, c)
  {
    LessTotal(a, b);
    LessTotal(b, c);
    if Less(a, c) {
      if Less(b, a) { LessTransitive(b, a, c); }
    }
  }

  /** A common prefix does not matter. */
  lemma {:induction false} LessPrefix(p: Bytes, a: Bytes, b: Bytes)
    ensures Less(p + a, p + b) <==> Less(a, b)
  {
    if |p| == 0 {
      assert p + a == a && p + b == b;
    } else {
      assert (p + a)[1..] == p[1..] + a && (p + b)[1..] == p[1..] + b;
      LessPrefix(p[1..], a, b);
    }
  }

  /** Equal-length strings compare by their first difference, whatever follows. */
  lemma {:induction false} LessConcat(a: Bytes, b: Bytes, c: Bytes, d: Bytes)
    requires |a| == |c|
    ensures Less(a + b, c + d) <==> Less(a, c) || (a == c && Less(b, d))
  {
    if |a| == 0 {
      assert a + b == b && c + d == d;
    } else {
      assert (a + b)[1..] == a[1..] + b && (c + d)[1..] == c[1..] + d;
      assert a == [a[0]] + a[1..] && c == [c[0]] + c[1..];
      LessConcat(a[1..], b, c[1..], d);
      if a == c { LessIrreflexive(a[1..]); }
    }
  }

  // ------------------------------------------------------------------ numbers as bytes

  /** The number a string of base-`radix` digits stands for, most significant first. */
  function Val(s: Bytes, radix: nat): nat {
    if |s| == 0 then 0 else Val(s[..|s| - 1], radix) * radix + s[|s| - 1]
  }

  predicate Digits(s: Bytes, radix: nat) { forall i :: 0 <= i < |s| ==> s[i] < radix }

  /** For digit strings of one length, byte order is numeric order. */
  lemma {:induction false} LessIsNumeric(a: Bytes, b: Bytes, radix: nat)
    requires |a| == |b| && Digits(a, radix) && Digits(b, radix)
    ensures Less(a, b) <==> Val(a, radix) < Val(b, radix)
    ensures a == b <==> Val(a, radix) == Val(b, radix)
  {
    if |a| > 0 {
      var n := |a| - 1;
      var a', b', x, y := a[..n], b[..n], a[n], b[n];
      assert a == a' + [x] && b == b' + [y];
      LessIsNumeric(a', b', radix);
      LessConcat(a', [x], b', [y]);
      assert Less([x], [y]) <==> x < y;
      DigitStep(Val(a', radix), x, Val(b', radix), y, radix);
    }
  }

  lemma DigitStep(p: nat, x: nat, q: nat, y: nat, radix: nat)
    requires x < radix && y < radix
    ensures p * radix + x < q * radix + y <==> p < q || (p == q && x < y)
    ensures p * radix + x == q * radix + y <==> p == q && x == y
  {
    if p < q {
      Gap(p, q, radix);
    } else if q < p {
      Gap(q, p, radix);
    }
  }

  lemma {:induction false} Gap(p: nat, q: nat, radix: nat)
    requires p < q
    ensures p * radix + radix <= q * radix
  {
    if p + 1 < q { Gap(p, q - 1, radix); }
    assert q * radix == (q - 1) * radix + radix;
  }

  /** `binary.BigEndian`: the n low-order bytes of v, most significant first. */
  function BigEndian(v: nat, n: nat): (b: Bytes)
    ensures |b| == n
  {
    if n == 0 then [] else BigEndian(v / 256, n - 1) + [v % 256]
  }

  function Power(radix: nat, n: nat): nat { if n == 0 then 1 else radix * Power(radix, n - 1) }

  lemma {:induction false} BigEndianVal(v: nat, n: nat)
    requires v < Power(256, n)
    ensures Val(BigEndian(v, n), 256) == v
  {
    if n > 0 {
      assert BigEndian(v, n)[..n - 1] == BigEndian(v / 256, n - 1);
      BigEndianVal(v / 256, n - 1);
    }
  }

  lemma Power8()
    ensures Power(256, 8) == TWO64
  {
    assert Power(256, 4) == 0x1_0000_0000;
    assert Power(256, 6) == 256 * 256 * Power(256, 4);
    assert Power(256, 8) == 256 * 256 * Power(256, 6);
  }

  /** Round trip and order of `PutUint64`. */
  lemma Uint64Bytes(v: nat, w: nat)
    requires v < TWO64 && w < TWO64
    ensures Val(BigEndian(v, 8), 256) == v
    ensures Less(BigEndian(v, 8), BigEndian(w, 8)) <==> v < w
    ensures BigEndian(v, 8) == BigEndian(w, 8) <==> v == w
  {
    Power8();
    BigEndianVal(v, 8);
    BigEndianVal(w, 8);
    LessIsNumeric(BigEndian(v, 8), BigEndian(w, 8), 256);
  }

  // ---------------------------------------------------------------------- sorted lists

  predicate Sorted(s: seq<Bytes>) { forall i, j :: 0 <= i < j < |s| ==> Less(s[i], s[j]) }

  /** A strictly ascending list is determined by its members. */
  lemma {:induction false} SortedUnique(s: seq<Bytes>, t: seq<Bytes>)
    requires Sorted(s) && Sorted(t)
    requires forall x :: x in s <==> x in t
    ensures s == t
  {
    if |s| == 0 {
      if |t| > 0 { HeadIsMember(t); }
    } else {
      assert s[0] in t;
      assert |t| > 0 && t[0] in s;
      HeadIsLeast(s, t[0]);
      HeadIsLeast(t, s[0]);
      if s[0] != t[0] { LessAsymmetric(s[0], t[0]); }
      forall x ensures x in s[1..] <==> x in t[1..] {
        TailMember(s, x);
        TailMember(t, x);
      }
      SortedUnique(s[1..], t[1..]);
      assert s == [s[0]] + s[1..] && t == [t[0]] + t[1..];
    }
  }

  lemma HeadIsMember(s: seq<Bytes>)
    requires |s| > 0
    ensures s[0] in s
  {
  }

  lemma HeadIsLeast(s: seq<Bytes>, x: Bytes)
    requires Sorted(s) && x in s
    ensures x == s[0] || Less(s[0], x)
  {
    var i :| 0 <= i < |s| && s[i] == x;
  }

  lemma TailMember(s: seq<Bytes>, x: Bytes)
    requires Sorted(s) && |s| > 0
    ensures x in s[1..] <==> x in s && x != s[0]
  {
    if x in s[1..] {
      var i :| 0 <= i < |s| - 1 && s[1..][i] == x;
      LessAsymmetric(s[0], s[i + 1]);
    }
    if x in s && x != s[0] {
      var i :| 0 <= i < |s| && s[i] == x;
      assert s[1..][i - 1] == x;
    }
  }
}
