/** Sortable ids: 128 bits as 26 base-32 characters, and the order-reversing form. */
module Ids {
  import opened Words
  import opened ByteOrder

  // ------------------------------------------------------------------------- alphabet

  const ENCODING: string := "0123456789ABCDEFGHJKMNPQRSTVWXYZ"

  /** `Encoding[d]`. */
  function EncodeDigit(d: byte): byte
    requires d < 32
  {
    if d < 10 then 48 + d          // 0-9
    else if d < 18 then 55 + d     // A-H
    else if d < 20 then 56 + d     // J K
    else if d < 22 then 57 + d     // M N
    else if d < 27 then 58 + d     // P-T
    else 59 + d                    // V-Z
  }

  lemma EncodingTable(d: byte)
    requires d < 32
    ensures ENCODING[d] as int == EncodeDigit(d)
  {
  }

  /** The table `dec`: lower case is read like upper case, 0xFF marks the rest. */
  function Dec(c: byte): byte {
    var u := if 97 <= c <= 122 then c - 32 else c;
    if 48 <= u <= 57 then u - 48
    else if 65 <= u <= 72 then u - 55
    else if 74 <= u <= 75 then u - 56
    else if 77 <= u <= 78 then u - 57
    else if 80 <= u <= 84 then u - 58
    else if 86 <= u <= 90 then u - 59
    else 0xFF
  }

  predicate InAlphabet(c: byte) { Dec(c) < 32 && EncodeDigit(Dec(c)) == c }

  lemma DigitRoundTrip(d: byte)
    requires d < 32
    ensures Dec(EncodeDigit(d)) == d && InAlphabet(EncodeDigit(d))
  {
  }

  /** The table does not mind the case of a letter, and letters outside the alphabet are invalid. */
  lemma CaseDoesNotMatter(c: byte)
    requires 65 <= c <= 90
    ensures Dec(c + 32) == Dec(c) && (Dec(c) == 255 <==> c == 73 || c == 76 || c == 79 || c == 85)
  {
  }

  function EncodeDigits(s: Bytes): (t: Bytes)
    requires Digits(s, 32)
    ensures |t| == |s|
  {
    seq(|s|, i requires 0 <= i < |s| => EncodeDigit(s[i]))
  }

  /** The alphabet is in ascending order, so encoding digits keeps byte order. */
  lemma {:induction false} EncodeKeepsOrder(a: Bytes, b: Bytes)
    requires |a| == |b| && Digits(a, 32) && Digits(b, 32)
    ensures Less(EncodeDigits(a), EncodeDigits(b)) <==> Less(a, b)
  {
    if |a| > 0 {
      assert EncodeDigits(a)[1..] == EncodeDigits(a[1..]) && EncodeDigits(b)[1..] == EncodeDigits(b[1..]);
      EncodeKeepsOrder(a[1..], b[1..]);
    }
  }

  // ----------------------------------------------------------------------- text codec

  /** Five bytes as eight digits.  A mask and shift of a byte is division and remainder,
      and the two halves of each `|` share no bit (`MasksAreArithmetic`). */
  function Block(b: Bytes): (d: Bytes)
    requires |b| == 5
    ensures |d| == 8 && Digits(d, 32)
  {
    [b[0] / 8,
     (b[0] % 8) * 4 + b[1] / 64,
     (b[1] / 2) % 32,
     (b[1] % 2) * 16 + b[2] / 16,
     (b[2] % 16) * 2 + b[3] / 128,
     (b[3] / 4) % 32,
     (b[3] % 4) * 8 + b[4] / 32,
     b[4] % 32]
  }

  /** Eight digits back to five bytes; shifts drop what leaves the byte. */
  function Unblock(d: Bytes): (b: Bytes)
    requires |d| == 8 && Digits(d, 32)
    ensures |b| == 5
  {
    [(d[0] * 8) % 256 + d[1] / 4,
     (d[1] % 4) * 64 + d[2] * 2 + d[3] / 16,
     (d[3] % 16) * 16 + d[4] / 2,
     (d[4] % 2) * 128 + d[5] * 4 + d[6] / 8,
     (d[6] % 8) * 32 + d[7]]
  }

  /** The bit operations of `MarshalTextTo` and `UnmarshalText` are the arithmetic used here. */
  lemma MasksAreArithmetic(x: bv8, y: bv8, z: bv8)
    ensures (x & 224) >> 5 == x / 32 && x & 31 == x % 32 && (x & 248) >> 3 == x / 8
    ensures ((x & 7) << 2) | ((y & 192) >> 6) == (x % 8) * 4 + y / 64
    ensures (x & 62) >> 1 == (x / 2) % 32
    ensures ((x & 1) << 4) | ((y & 240) >> 4) == (x % 2) * 16 + y / 16
    ensures ((x & 15) << 1) | ((y & 128) >> 7) == (x % 16) * 2 + y / 128
    ensures (x & 124) >> 2 == (x / 4) % 32
    ensures ((x & 3) << 3) | ((y & 224) >> 5) == (x % 4) * 8 + y / 32
    ensures x < 32 && y < 32 ==> (x << 3) | (y >> 2) == x * 8 + y / 4
    ensures x < 32 && y < 32 ==> (x << 4) | (y >> 1) == (x % 16) * 16 + y / 2
    ensures x < 32 && y < 32 ==> (x << 5) | y == (x % 8) * 32 + y
    ensures x < 32 && y < 32 && z < 32 ==> (x << 6) | (y << 1) | (z >> 4) == (x % 4) * 64 + y * 2 + z / 16
    ensures x < 32 && y < 32 && z < 32 ==> (x << 7) | (y << 2) | (z >> 3) == (x % 2) * 128 + y * 4 + z / 8
  {
  }

  /** The 26 digits of an id: one byte on two digits, then three blocks. */
  function TextDigits(id: Bytes): (d: Bytes)
    requires |id| == 16
    ensures |d| == 26 && Digits(d, 32)
  {
    [id[0] / 32, id[0] % 32] + Block(id[1..6]) + Block(id[6..11]) + Block(id[11..16])
  }

  /** `MarshalTextTo` on a buffer of the right size. */
  function MarshalText(id: Bytes): (text: Bytes)
    requires |id| == 16
    ensures |text| == 26
  {
    EncodeDigits(TextDigits(id))
  }

  function DecodeDigits(v: Bytes): Bytes { seq(|v|, i requires 0 <= i < |v| => Dec(v[i])) }

  /** `UnmarshalText`: an error unless the text has 26 bytes.  Characters outside the table
      give an undefined id in the source; this model leaves them out. */
  function UnmarshalText(v: Bytes): Option<Bytes>
    requires forall i :: 0 <= i < |v| ==> Dec(v[i]) < 32
  {
    if |v| != 26 then None
    else
      var d := DecodeDigits(v);
      Some([(d[0] % 8) * 32 + d[1]] + Unblock(d[2..10]) + Unblock(d[10..18]) + Unblock(d[18..26]))
  }

  /** A byte is the sum of the parts that neighbouring digits take from it. */
  lemma Parts(x: nat)
    ensures (x / 64) * 64 + ((x / 2) % 32) * 2 + x % 2 == x
    ensures (x / 128) * 128 + ((x / 4) % 32) * 4 + x % 4 == x
  {
    assert (x / 2) / 32 == x / 64;
    assert (x / 4) / 32 == x / 128;
  }

  lemma ValStep(s: Bytes, k: nat, radix: nat)
    requires k < |s|
    ensures Val(s[..0], radix) == 0
    ensures Val(s[..k + 1], radix) == Val(s[..k], radix) * radix + s[k]
  {
    assert s[..k + 1][..k] == s[..k];
  }

  lemma Val5(b: Bytes)
    requires |b| == 5
    ensures Val(b, 256) == ((((b[0] as int) * 256 + b[1]) * 256 + b[2]) * 256 + b[3]) * 256 + b[4]
  {
    hide Val;
    ValStep(b, 0, 256);
    ValStep(b, 1, 256);
    ValStep(b, 2, 256);
    ValStep(b, 3, 256);
    ValStep(b, 4, 256);
    assert b[..4 + 1] == b;
  }

  lemma FourMore(d: Bytes, k: nat)
    requires k + 4 <= |d|
    ensures Val(d[..k + 4], 32) == (((Val(d[..k], 32) * 32 + d[k]) * 32 + d[k + 1]) * 32 + d[k + 2]) * 32 + d[k + 3]
  {
    hide Val;
    ValStep(d, k, 32);
    ValStep(d, k + 1, 32);
    ValStep(d, k + 2, 32);
    ValStep(d, k + 3, 32);
  }

  lemma Val8(d: Bytes)
    requires |d| == 8
    ensures var high := (((d[0] as int) * 32 + d[1]) * 32 + d[2]) * 32 + d[3];
      Val(d, 32) == (((high * 32 + d[4]) * 32 + d[5]) * 32 + d[6]) * 32 + d[7]
  {
    FourMore(d, 0);
    FourMore(d, 4);
    assert Val(d[..0], 32) == 0 && d[..4 + 4] == d;
  }

  /** Eight digits spell the same number as the five bytes they came from. */
  lemma BlockVal(b: Bytes)
    requires |b| == 5
    ensures Val(Block(b), 32) == Val(b, 256)
  {
    Val8(Block(b));
    Val5(b);
    Parts(b[0]);
    Parts(b[1]);
    Parts(b[2]);
    Parts(b[3]);
    Parts(b[4]);
  }

  lemma UnblockVal(d: Bytes)
    requires |d| == 8 && Digits(d, 32)
    ensures Val(Unblock(d), 256) == Val(d, 32)
  {
    Val8(d);
    Val5(Unblock(d));
  }

  lemma BlockRoundTrip(b: Bytes)
    requires |b| == 5
    ensures Unblock(Block(b)) == b
  {
    BlockVal(b);
    UnblockVal(Block(b));
    LessIsNumeric(Unblock(Block(b)), b, 256);
  }

  lemma MarshalsIntoTable(id: Bytes)
    requires |id| == 16
    ensures forall i :: 0 <= i < 26 ==> InAlphabet(MarshalText(id)[i]) && Dec(MarshalText(id)[i]) == TextDigits(id)[i]
  {
    forall i | 0 <= i < 26 ensures InAlphabet(MarshalText(id)[i]) && Dec(MarshalText(id)[i]) == TextDigits(id)[i] {
      DigitRoundTrip(TextDigits(id)[i]);
    }
  }

  /** `UnmarshalText` inverts `MarshalTextTo` for every id. */
  lemma TextRoundTrip(id: Bytes)
    requires |id| == 16
    ensures forall i :: 0 <= i < 26 ==> Dec(MarshalText(id)[i]) < 32
    ensures UnmarshalText(MarshalText(id)) == Some(id)
  {
    hide Block, Unblock;
    MarshalsIntoTable(id);
    var d := TextDigits(id);
    assert DecodeDigits(MarshalText(id)) == d;
    assert d[2..10] == Block(id[1..6]) && d[10..18] == Block(id[6..11]) && d[18..26] == Block(id[11..16]);
    BlockRoundTrip(id[1..6]);
    BlockRoundTrip(id[6..11]);
    BlockRoundTrip(id[11..16]);
    assert id == [id[0]] + id[1..6] + id[6..11] + id[11..16];
  }

  // ---------------------------------------------------------------------------- order

  /** Blocks compare like the bytes they encode. */
  lemma BlockOrder(a: Bytes, b: Bytes)
    requires |a| == |b| == 5
    ensures Less(Block(a), Block(b)) <==> Less(a, b)
    ensures Block(a) == Block(b) <==> a == b
  {
    BlockVal(a);
    BlockVal(b);
    LessIsNumeric(Block(a), Block(b), 32);
    LessIsNumeric(a, b, 256);
  }

  lemma HeadOrder(x: byte, y: byte)
    ensures Less(Head(x), Head(y)) <==> Less([x], [y])
    ensures Head(x) == Head(y) <==> x == y
  {
    assert Less([x / 32, x % 32], [y / 32, y % 32]) <==> x / 32 < y / 32 || (x / 32 == y / 32 && x % 32 < y % 32) by {
      LessConcat([x / 32], [x % 32], [y / 32], [y % 32]);
      assert [x / 32] + [x % 32] == [x / 32, x % 32] && [y / 32] + [y % 32] == [y / 32, y % 32];
    }
    assert [x / 32, x % 32] == [y / 32, y % 32] ==> x / 32 == y / 32 && x % 32 == y % 32 by {
      assert [x / 32, x % 32][0] == x / 32 && [x / 32, x % 32][1] == x % 32;
    }
  }

  function Head(x: byte): Bytes { [x / 32, x % 32] }

  lemma Pieces(a: Bytes)
    requires |a| == 16
    ensures a == [a[0]] + a[1..6] + a[6..11] + a[11..16]
    ensures TextDigits(a) == Head(a[0]) + Block(a[1..6]) + Block(a[6..11]) + Block(a[11..16])
  {
    hide Block;
  }

  lemma DigitsOrder(a: Bytes, b: Bytes)
    requires |a| == |b| == 16
    ensures Less(TextDigits(a), TextDigits(b)) <==> Less(a, b)
  {
    assert |Head(a[0])| == |Head(b[0])|;
    HeadOrder(a[0], b[0]);
    hide Block, Less, TextDigits, Head;
    assert [a[0]] == [b[0]] <==> a[0] == b[0] by { assert [a[0]][0] == a[0] && [b[0]][0] == b[0]; }
    BlockOrder(a[1..6], b[1..6]);
    BlockOrder(a[6..11], b[6..11]);
    BlockOrder(a[11..16], b[11..16]);
    Pieces(a);
    Pieces(b);
    FourOrder(Head(a[0]), Block(a[1..6]), Block(a[6..11]), Block(a[11..16]),
              Head(b[0]), Block(b[1..6]), Block(b[6..11]), Block(b[11..16]));
    FourOrder([a[0]], a[1..6], a[6..11], a[11..16], [b[0]], b[1..6], b[6..11], b[11..16]);
  }

  /** Order of a concatenation of four fields of fixed widths. */
  lemma FourOrder(a: Bytes, b: Bytes, c: Bytes, d: Bytes, a': Bytes, b': Bytes, c': Bytes, d': Bytes)
    requires |a| == |a'| && |b| == |b'| && |c| == |c'|
    ensures Less(a + b + c + d, a' + b' + c' + d') <==>
            Less(a, a') || (a == a' && (Less(b, b') || (b == b' && (Less(c, c') || (c == c' && Less(d, d'))))))
  {
    LessConcat(a + b + c, d, a' + b' + c', d');
    LessConcat(a + b, c, a' + b', c');
    LessConcat(a, b, a', b');
    if a + b + c == a' + b' + c' {
      assert a == (a + b + c)[..|a|] && a' == (a' + b' + c')[..|a|];
      assert b == (a + b + c)[|a|..|a| + |b|] && b' == (a' + b' + c')[|a|..|a| + |b|];
      assert c == (a + b + c)[|a| + |b|..] && c' == (a' + b' + c')[|a| + |b|..];
    }
    if a + b == a' + b' {
      assert a == (a + b)[..|a|] && a' == (a' + b')[..|a|];
      assert b == (a + b)[|a|..] && b' == (a' + b')[|a|..];
    }
  }

  /** Text order is byte order. */
  lemma TextOrder(a: Bytes, b: Bytes)
    requires |a| == |b| == 16
    ensures Less(MarshalText(a), MarshalText(b)) <==> Less(a, b)
  {
    DigitsOrder(a, b);
    EncodeKeepsOrder(TextDigits(a), TextDigits(b));
  }

  // -------------------------------------------------------------------------- new ids

  const TWO48: nat := 0x1_0000_0000_0000

  /** `newID`: the low 48 bits of the time and of the machine, then the counter. */
  function NewID(ms: nat, machineID: nat, count: nat): (id: Bytes)
    ensures |id| == 16
  {
    [(ms / 0x100_0000_0000) % 256, (ms / 0x1_0000_0000) % 256, (ms / 0x100_0000) % 256,
     (ms / 0x1_0000) % 256, (ms / 0x100) % 256, ms % 256]
    + [(machineID / 0x100_0000_0000) % 256, (machineID / 0x1_0000_0000) % 256, (machineID / 0x100_0000) % 256,
       (machineID / 0x1_0000) % 256, (machineID / 0x100) % 256, machineID % 256]
    + [(count / 0x100_0000) % 256, (count / 0x1_0000) % 256, (count / 0x100) % 256, count % 256]
  }

  lemma Shifts(v: nat)
    ensures BigEndian(v, 6) == [(v / 0x100_0000_0000) % 256, (v / 0x1_0000_0000) % 256, (v / 0x100_0000) % 256,
                                (v / 0x1_0000) % 256, (v / 0x100) % 256, v % 256]
    ensures BigEndian(v, 4) == [(v / 0x100_0000) % 256, (v / 0x1_0000) % 256, (v / 0x100) % 256, v % 256]
  {
    var a := v / 0x100;
    var b := a / 0x100;
    var c := b / 0x100;
    var d := c / 0x100;
    var e := d / 0x100;
    assert b == v / 0x1_0000 && c == v / 0x100_0000 && d == v / 0x1_0000_0000 && e == v / 0x100_0000_0000;
    assert BigEndian(e, 1) == [e % 256];
    assert BigEndian(d, 2) == [e % 256, d % 256];
    assert BigEndian(c, 3) == [e % 256, d % 256, c % 256];
    assert BigEndian(b, 4) == [e % 256, d % 256, c % 256, b % 256];
    assert BigEndian(a, 5) == [e % 256, d % 256, c % 256, b % 256, a % 256];
    assert BigEndian(c, 1) == [c % 256];
    assert BigEndian(b, 2) == [c % 256, b % 256];
    assert BigEndian(a, 3) == [c % 256, b % 256, a % 256];
  }

  lemma Fixed(v: nat, w: nat, n: nat)
    requires v < Power(256, n) && w < Power(256, n)
    ensures Less(BigEndian(v, n), BigEndian(w, n)) <==> v < w
    ensures BigEndian(v, n) == BigEndian(w, n) <==> v == w
  {
    BigEndianVal(v, n);
    BigEndianVal(w, n);
    LessIsNumeric(BigEndian(v, n), BigEndian(w, n), 256);
  }

  lemma Powers()
    ensures Power(256, 4) == TWO32 && Power(256, 6) == TWO48
  {
    assert Power(256, 3) == 0x100_0000;
    assert Power(256, 5) == 256 * 256 * Power(256, 3);
  }

  /** Ids of one machine sort exactly by time, then counter, in bytes and as text. */
  lemma IdsSortByTimeAndCounter(ms: nat, count: nat, ms': nat, count': nat, machineID: nat)
    requires ms < TWO48 && ms' < TWO48 && machineID < TWO48 && count < TWO32 && count' < TWO32
    ensures Less(NewID(ms, machineID, count), NewID(ms', machineID, count'))
            <==> ms < ms' || (ms == ms' && count < count')
    ensures Less(MarshalText(NewID(ms, machineID, count)), MarshalText(NewID(ms', machineID, count')))
            <==> ms < ms' || (ms == ms' && count < count')
  {
    hide MarshalText;
    Shifts(ms);
    Shifts(ms');
    Shifts(machineID);
    Shifts(count);
    Shifts(count');
    Powers();
    Fixed(ms, ms', 6);
    Fixed(count, count', 4);
    var m := BigEndian(machineID, 6);
    LessIrreflexive(m);
    FourOrder(BigEndian(ms, 6), m, BigEndian(count, 4), [], BigEndian(ms', 6), m, BigEndian(count', 4), []);
    assert NewID(ms, machineID, count) == BigEndian(ms, 6) + m + BigEndian(count, 4) + [];
    assert NewID(ms', machineID, count') == BigEndian(ms', 6) + m + BigEndian(count', 4) + [];
    TextOrder(NewID(ms, machineID, count), NewID(ms', machineID, count'));
  }

  /** Time, machine and counter can all be told from an id. */
  lemma IdsAreUnique(ms: nat, machineID: nat, count: nat, ms': nat, machineID': nat, count': nat)
    requires ms < TWO48 && machineID < TWO48 && count < TWO32 && ms' < TWO48 && machineID' < TWO48 && count' < TWO32
    ensures NewID(ms, machineID, count) == NewID(ms', machineID', count')
       <==> ms == ms' && machineID == machineID' && count == count'
  {
    Powers();
    Fixed(ms, ms', 6);
    Fixed(machineID, machineID', 6);
    Fixed(count, count', 4);
    IdFields(ms, machineID, count);
    IdFields(ms', machineID', count');
  }

  lemma IdFields(ms: nat, machineID: nat, count: nat)
    ensures var id := NewID(ms, machineID, count);
      id[..6] == BigEndian(ms, 6) && id[6..12] == BigEndian(machineID, 6) && id[12..] == BigEndian(count, 4)
  {
    Shifts(ms);
    Shifts(machineID);
    Shifts(count);
  }

  // --------------------------------------------------------------- descending encoding

  /** `rEncoding[strings.Index(Encoding, c)]` for a character of the alphabet. */
  function FlipChar(c: byte): byte
    requires InAlphabet(c)
  {
    EncodeDigit(31 - Dec(c))
  }

  predicate AllInAlphabet(s: Bytes) { forall i :: 0 <= i < |s| ==> InAlphabet(s[i]) }

  /** `EncodeDescending` where it does not panic. */
  function Flip(s: Bytes): (t: Bytes)
    requires AllInAlphabet(s)
    ensures |t| == |s|
  {
    seq(|s|, i requires 0 <= i < |s| => FlipChar(s[i]))
  }

  lemma FlipInAlphabet(c: byte)
    requires InAlphabet(c)
    ensures InAlphabet(FlipChar(c)) && FlipChar(FlipChar(c)) == c
  {
    DigitRoundTrip(31 - Dec(c));
  }

  /** Flipping is its own inverse. */
  lemma FlipInvolution(s: Bytes)
    requires AllInAlphabet(s)
    ensures AllInAlphabet(Flip(s)) && Flip(Flip(s)) == s
  {
    forall i | 0 <= i < |s| ensures InAlphabet(Flip(s)[i]) && FlipChar(Flip(s)[i]) == s[i] { FlipInAlphabet(s[i]); }
  }

  lemma FlipCharReverses(x: byte, y: byte)
    requires InAlphabet(x) && InAlphabet(y)
    ensures FlipChar(x) < FlipChar(y) <==> y < x
    ensures FlipChar(x) == FlipChar(y) <==> x == y
  {
  }

  /** Flipping reverses the order of texts of one length. */
  lemma {:induction false} FlipReversesOrder(a: Bytes, b: Bytes)
    requires |a| == |b| && AllInAlphabet(a) && AllInAlphabet(b)
    ensures Less(Flip(a), Flip(b)) <==> Less(b, a)
  {
    hide FlipChar, InAlphabet;
    if |a| > 0 {
      assert Flip(a)[1..] == Flip(a[1..]) && Flip(b)[1..] == Flip(b[1..]);
      FlipReversesOrder(a[1..], b[1..]);
      FlipCharReverses(a[0], b[0]);
    }
  }

  /** `EncodeDescending`: fills a 26-byte buffer in place.  It panics (here: `None`) on a
      longer text, whose slice leaves the buffer, and on a character outside the alphabet. */
  method EncodeDescending(src: Bytes) returns (r: Option<Bytes>)
    ensures r.Some? <==> |src| <= 26 && AllInAlphabet(src)
    ensures r.Some? ==> r.value == Flip(src)
  {
    if |src| > 26 {
      return None;
    }
    var buf := new byte[26](_ => 0);
    forall i | 0 <= i < |src| {
      buf[i] := src[i];
    }
    var i := 0;
    while i < |src|
      invariant 0 <= i <= |src|
      invariant forall j :: 0 <= j < i ==> InAlphabet(src[j]) && buf[j] == FlipChar(src[j])
      invariant forall j :: i <= j < |src| ==> buf[j] == src[j]
    {
      if !InAlphabet(buf[i]) {
        return None;
      }
      buf[i] := FlipChar(buf[i]);
      i := i + 1;
    }
    return Some(buf[..|src|]);
  }
}
