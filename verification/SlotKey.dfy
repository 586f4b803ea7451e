/** The byte string that is hashed into the key of a hot-slot queue. */
module SlotKey {
  import opened Words
  import opened ByteOrder
  import opened Lists

  type i32 = x: int | -0x8000_0000 <= x < 0x8000_0000

  /** The parts of a call that decide which containers can serve it. */
  datatype Call = Call(
    app: Bytes, path: Bytes, image: Bytes, format: Bytes,
    timeout: i32, idleTimeout: i32, memory: u64, cpus: u64,
    config: map<Bytes, Bytes>, annotations: map<Bytes, Bytes>
  )

  // -------------------------------------------------------------------- sorted keys

  function Position(keys: seq<Bytes>, k: Bytes): (i: nat)
    ensures IsPosition(keys, k, i)
  {
    if |keys| == 0 || !Less(keys[0], k) then 0
    else
      var i := Position(keys[1..], k) + 1;
      assert forall j :: 0 < j < i ==> keys[j] == keys[1..][j - 1];
      i
  }

  predicate IsPosition(keys: seq<Bytes>, k: Bytes, i: nat) {
    && i <= |keys|
    && (forall j :: 0 <= j < i ==> Less(keys[j], k))
    && (i < |keys| ==> !Less(keys[i], k))
  }

  ghost predicate IsSortedKeys(s: set<Bytes>, keys: seq<Bytes>) { Sorted(keys) && forall k :: k in keys <==> k in s }

  /** Inserting where the search points keeps the keys sorted. */
  lemma InsertSorted(s: set<Bytes>, keys: seq<Bytes>, k: Bytes, i: nat)
    requires IsSortedKeys(s, keys) && k !in s && IsPosition(keys, k, i)
    ensures IsSortedKeys(s + {k}, keys[..i] + [k] + keys[i..])
  {
    var t := keys[..i] + [k] + keys[i..];
    forall j | i <= j < |keys| ensures Less(k, keys[j]) {
      assert keys[j] in s;
      LessTotal(k, keys[i]);
      assert keys[i] in s;
      if i < j { LessTransitive(k, keys[i], keys[j]); }
    }
    assert forall x :: x in keys <==> x in keys[..i] || x in keys[i..] by { assert keys == keys[..i] + keys[i..]; }
  }

  ghost function SortedKeys(s: set<Bytes>): (keys: seq<Bytes>)
    ensures IsSortedKeys(s, keys)
  {
    if s == {} then []
    else
      var k :| k in s;
      var keys := SortedKeys(s - {k});
      var i := Position(keys, k);
      InsertSorted(s - {k}, keys, k, i);
      assert s - {k} + {k} == s;
      keys[..i] + [k] + keys[i..]
  }

  /** `sort.SearchStrings`. */
  method SearchStrings(keys: seq<Bytes>, k: Bytes) returns (i: nat)
    requires Sorted(keys)
    ensures IsPosition(keys, k, i)
  {
    i := 0;
    var high := |keys|;
    while i < high
      invariant 0 <= i <= high <= |keys|
      invariant forall j :: 0 <= j < i ==> Less(keys[j], k)
      invariant high < |keys| ==> !Less(keys[high], k)
    {
      var mid := (i + high) / 2;
      if Less(keys[mid], k) {
        forall j | 0 <= j < mid ensures Less(keys[j], k) { LessTransitive(keys[j], keys[mid], k); }
        i := mid + 1;
      } else {
        high := mid;
      }
    }
  }

  /** An order in which `range` may visit the keys of a map. */
  ghost predicate Enumerates(order: seq<Bytes>, s: set<Bytes>) {
    && (forall k :: k in order <==> k in s)
    && forall i, j :: 0 <= i < j < |order| ==> order[i] != order[j]
  }

  /** The insertion loop: whatever the order, the keys come out sorted. */
  method SortKeys(order: seq<Bytes>, ghost s: set<Bytes>) returns (keys: seq<Bytes>)
    requires Enumerates(order, s)
    ensures keys == SortedKeys(s)
  {
    keys := [];
    ghost var seen: set<Bytes> := {};
    var n := 0;
    while n < |order|
      invariant 0 <= n <= |order|
      invariant IsSortedKeys(seen, keys)
      invariant forall k :: k in seen <==> k in order[..n]
    {
      var k := order[n];
      assert k !in seen;
      var i := SearchStrings(keys, k);
      InsertSorted(seen, keys, k, i);
      keys := keys[..i] + [k] + keys[i..];
      seen := seen + {k};
      assert order[..n + 1] == order[..n] + [k];
      n := n + 1;
    }
    assert order[..n] == order;
    SortedUnique(keys, SortedKeys(s));
  }

  // ------------------------------------------------------------------------- writing

  /** `binary.LittleEndian`. */
  function LittleEndian(v: nat, n: nat): (b: Bytes)
    ensures |b| == n
  {
    if n == 0 then [] else [v % 256] + LittleEndian(v / 256, n - 1)
  }

  function LittleVal(b: Bytes): nat { if b == [] then 0 else b[0] + 256 * LittleVal(b[1..]) }

  lemma {:induction false} LittleEndianVal(v: nat, n: nat)
    requires v < Power(256, n)
    ensures LittleVal(LittleEndian(v, n)) == v
  {
    if n > 0 { LittleEndianVal(v / 256, n - 1); }
  }

  /** `uint32` of an int32. */
  function Unsigned(x: i32): nat { if x < 0 then x + TWO32 else x }
  function Signed(n: nat): i32
    requires n < TWO32
  {
    if n < 0x8000_0000 then n else n - TWO32
  }

  const NUL: byte := 0

  function Pair(k: Bytes, v: Bytes): Bytes { k + [NUL] + v + [NUL] }

  function Pairs(keys: seq<Bytes>, m: map<Bytes, Bytes>): Bytes
    requires forall k :: k in keys ==> k in m
  {
    if keys == [] then []
    else Pair(keys[0], m[keys[0]]) + Pairs(keys[1..], m)
  }

  function Numbers(c: Call): (b: Bytes)
    ensures |b| == 24
  {
    LittleEndian(Unsigned(c.timeout), 4) + LittleEndian(Unsigned(c.idleTimeout), 4)
    + LittleEndian(c.memory, 8) + LittleEndian(c.cpus, 8)
  }

  ghost function Written(m: map<Bytes, Bytes>): Bytes { Pairs(SortedKeys(m.Keys), m) }

  /** What is hashed: four strings, a block of numbers, the config, the annotations. */
  ghost function KeyBytes(c: Call): Bytes {
    c.app + [NUL] + (c.path + [NUL] + (c.image + [NUL] + (c.format + [NUL]
    + (Numbers(c) + [NUL] + (Written(c.config) + [NUL] + Written(c.annotations))))))
  }

  lemma {:induction false} PairsAppend(keys: seq<Bytes>, m: map<Bytes, Bytes>, k: Bytes)
    requires k in m && forall x :: x in keys ==> x in m
    ensures Pairs(keys + [k], m) == Pairs(keys, m) + Pair(k, m[k])
  {
    hide Pair;
    if keys == [] {
      assert (keys + [k])[1..] == [];
    } else {
      assert (keys + [k])[1..] == keys[1..] + [k];
      PairsAppend(keys[1..], m, k);
    }
  }

  method WritePairs(keys: seq<Bytes>, m: map<Bytes, Bytes>) returns (out: Bytes)
    requires forall k :: k in keys ==> k in m
    ensures out == Pairs(keys, m)
  {
    out := [];
    var i := 0;
    while i < |keys|
      invariant 0 <= i <= |keys|
      invariant out == Pairs(keys[..i], m)
    {
      PairsAppend(keys[..i], m, keys[i]);
      assert keys[..i + 1] == keys[..i] + [keys[i]];
      out := out + Pair(keys[i], m[keys[i]]);
      i := i + 1;
    }
    assert keys[..i] == keys;
  }

  /** `getSlotQueueKey` up to the hash, for any iteration order of the two maps. */
  method GetSlotQueueKey(c: Call, configOrder: seq<Bytes>, annotationOrder: seq<Bytes>) returns (out: Bytes)
    requires Enumerates(configOrder, c.config.Keys) && Enumerates(annotationOrder, c.annotations.Keys)
    ensures out == KeyBytes(c)
  {
    hide Enumerates, Pairs, LittleEndian, Unsigned;
    out := c.app + [NUL] + c.path + [NUL] + c.image + [NUL] + c.format + [NUL];
    var numbers := LittleEndian(Unsigned(c.timeout), 4) + LittleEndian(Unsigned(c.idleTimeout), 4)
      + LittleEndian(c.memory, 8) + LittleEndian(c.cpus, 8);
    var keys := SortKeys(configOrder, c.config.Keys);
    var config := WritePairs(keys, c.config);
    keys := SortKeys(annotationOrder, c.annotations.Keys);
    var annotations := WritePairs(keys, c.annotations);
    out := out + numbers + [NUL] + config + [NUL] + annotations;
    Nesting(c.app, c.path, c.image, c.format, numbers, config, annotations);
  }

  lemma Nesting(a: Bytes, b: Bytes, c: Bytes, d: Bytes, n: Bytes, x: Bytes, y: Bytes)
    ensures a + [NUL] + b + [NUL] + c + [NUL] + d + [NUL] + n + [NUL] + x + [NUL] + y
         == a + [NUL] + (b + [NUL] + (c + [NUL] + (d + [NUL] + (n + [NUL] + (x + [NUL] + y)))))
  {
    var tail := n + [NUL] + (x + [NUL] + y);
    assert d + [NUL] + n + [NUL] + x + [NUL] + y == d + [NUL] + tail;
    assert c + [NUL] + d + [NUL] + n + [NUL] + x + [NUL] + y == c + [NUL] + (d + [NUL] + tail);
  }

  // ------------------------------------------------------------------ bytes and fields

  predicate NulFree(s: Bytes) { NUL !in s }

  predicate NulFreeAll(fs: seq<Bytes>) { forall i :: 0 <= i < |fs| ==> NulFree(fs[i]) }

  /** Fields, each followed by a NUL. */
  function Join(fs: seq<Bytes>): Bytes { if fs == [] then [] else fs[0] + [NUL] + Join(fs[1..]) }

  lemma {:induction false} JoinConcat(a: seq<Bytes>, b: seq<Bytes>)
    ensures Join(a + b) == Join(a) + Join(b)
  {
    if a == [] {
      assert a + b == b;
    } else {
      assert (a + b)[1..] == a[1..] + b;
      JoinConcat(a[1..], b);
    }
  }

  datatype Cut = Cut(field: Bytes, rest: Bytes)

  /** The bytes before the first NUL, and those after it. */
  function TakeField(s: Bytes): (r: Option<Cut>)
    ensures r.Some? ==> |r.value.rest| < |s|
  {
    var i := IndexOf(s, NUL);
    if i == |s| then None else Some(Cut(s[..i], s[i + 1..]))
  }

  lemma FieldTaken(a: Bytes, rest: Bytes)
    requires NulFree(a)
    ensures TakeField(a + [NUL] + rest) == Some(Cut(a, rest))
  {
    IndexAfter(a, NUL, rest);
  }

  function SplitFields(s: Bytes): seq<Bytes>
    decreases |s|
  {
    var cut := TakeField(s);
    if cut.None? then [] else [cut.value.field] + SplitFields(cut.value.rest)
  }

  lemma {:induction false} SplitJoined(fs: seq<Bytes>)
    requires NulFreeAll(fs)
    ensures SplitFields(Join(fs)) == fs
  {
    hide TakeField;
    if fs != [] {
      FieldTaken(fs[0], Join(fs[1..]));
      SplitJoined(fs[1..]);
      assert fs == [fs[0]] + fs[1..];
    } else {
      NoField();
    }
  }

  lemma NoField()
    ensures TakeField([]) == None
  {
  }

  // ---------------------------------------------------------------- fields of the maps

  /** Keys and values in turn. */
  function FieldsOf(keys: seq<Bytes>, m: map<Bytes, Bytes>): (fs: seq<Bytes>)
    requires forall k :: k in keys ==> k in m
    ensures |fs| == 2 * |keys|
  {
    if keys == [] then [] else [keys[0], m[keys[0]]] + FieldsOf(keys[1..], m)
  }

  lemma {:induction false} FieldAt(keys: seq<Bytes>, m: map<Bytes, Bytes>, i: nat)
    requires (forall k :: k in keys ==> k in m) && i < |keys|
    ensures FieldsOf(keys, m)[2 * i] == keys[i] && FieldsOf(keys, m)[2 * i + 1] == m[keys[i]]
  {
    if i > 0 { FieldAt(keys[1..], m, i - 1); }
  }

  lemma JoinOne(f: Bytes)
    ensures Join([f]) == f + [NUL]
  {
    assert Join([f][1..]) == [];
  }

  lemma JoinTwo(k: Bytes, v: Bytes)
    ensures Join([k, v]) == Pair(k, v)
  {
    JoinOne(v);
    assert [k, v][1..] == [v];
  }

  lemma {:induction false} PairsAreJoined(keys: seq<Bytes>, m: map<Bytes, Bytes>)
    requires forall k :: k in keys ==> k in m
    ensures Pairs(keys, m) == Join(FieldsOf(keys, m))
  {
    if keys != [] {
      var k, v := keys[0], m[keys[0]];
      PairsAreJoined(keys[1..], m);
      JoinConcat([k, v], FieldsOf(keys[1..], m));
      JoinTwo(k, v);
    }
  }

  /** The fields of both maps, with the empty separator between them. */
  ghost function Body(c: Call): seq<Bytes> {
    FieldsOf(SortedKeys(c.config.Keys), c.config) + [[]] + FieldsOf(SortedKeys(c.annotations.Keys), c.annotations)
  }

  lemma BodyIsJoined(c: Call)
    ensures Written(c.config) + [NUL] + Written(c.annotations) == Join(Body(c))
  {
    hide FieldsOf, Join, Pairs, SortedKeys;
    var a, b := FieldsOf(SortedKeys(c.config.Keys), c.config), FieldsOf(SortedKeys(c.annotations.Keys), c.annotations);
    PairsAreJoined(SortedKeys(c.config.Keys), c.config);
    PairsAreJoined(SortedKeys(c.annotations.Keys), c.annotations);
    JoinConcat(a + [[]], b);
    JoinConcat(a, [[]]);
    JoinOne([]);
  }

  predicate NulFreeMap(m: map<Bytes, Bytes>) { forall k :: k in m ==> NulFree(k) && NulFree(m[k]) }

  /** The strings of a call hold no NUL. */
  predicate NulFreeCall(c: Call) {
    && NulFree(c.app) && NulFree(c.path) && NulFree(c.image) && NulFree(c.format)
    && NulFreeMap(c.config) && NulFreeMap(c.annotations)
  }

  lemma {:induction false} FieldsAreNulFree(keys: seq<Bytes>, m: map<Bytes, Bytes>)
    requires NulFreeMap(m) && forall k :: k in keys ==> k in m
    ensures NulFreeAll(FieldsOf(keys, m))
  {
    if keys != [] { FieldsAreNulFree(keys[1..], m); }
  }

  // ------------------------------------------------------------------------- reading

  /** What can be read off the bytes without deciding where the config ends. */
  datatype Parts = Parts(
    app: Bytes, path: Bytes, image: Bytes, format: Bytes,
    timeout: i32, idleTimeout: i32, memory: u64, cpus: u64, fields: seq<Bytes>
  )

  function ToI32(b: Bytes): i32 { Signed(LittleVal(b) % TWO32) }
  function ToU64(b: Bytes): u64 { LittleVal(b) % TWO64 }

  function ReadParts(s: Bytes): Option<Parts> {
    var app := TakeField(s);
    if app.None? then None else
    var path := TakeField(app.value.rest);
    if path.None? then None else
    var image := TakeField(path.value.rest);
    if image.None? then None else
    var format := TakeField(image.value.rest);
    if format.None? || |format.value.rest| < 25 then None else
    Some(ReadTail(app.value.field, path.value.field, image.value.field, format.value.field, format.value.rest))
  }

  function ReadTail(app: Bytes, path: Bytes, image: Bytes, format: Bytes, s: Bytes): Parts
    requires |s| >= 25
  {
    Parts(app, path, image, format,
          ToI32(s[..4]), ToI32(s[4..8]), ToU64(s[8..16]), ToU64(s[16..24]), SplitFields(s[25..]))
  }

  ghost function PartsOf(c: Call): Parts {
    Parts(c.app, c.path, c.image, c.format, c.timeout, c.idleTimeout, c.memory, c.cpus, Body(c))
  }

  lemma NumbersRead(c: Call)
    ensures var b := Numbers(c);
      && ToI32(b[..4]) == c.timeout && ToI32(b[4..8]) == c.idleTimeout
      && ToU64(b[8..16]) == c.memory && ToU64(b[16..24]) == c.cpus
  {
    hide LittleEndian, LittleVal;
    Power8();
    assert Power(256, 4) == TWO32;
    var b := Numbers(c);
    assert b[..4] == LittleEndian(Unsigned(c.timeout), 4);
    assert b[4..8] == LittleEndian(Unsigned(c.idleTimeout), 4);
    assert b[8..16] == LittleEndian(c.memory, 8);
    assert b[16..24] == LittleEndian(c.cpus, 8);
    LittleEndianVal(Unsigned(c.timeout), 4);
    LittleEndianVal(Unsigned(c.idleTimeout), 4);
    LittleEndianVal(c.memory, 8);
    LittleEndianVal(c.cpus, 8);
  }

  lemma BodySplit(c: Call)
    requires NulFreeCall(c)
    ensures SplitFields(Join(Body(c))) == Body(c)
  {
    BodyIsNulFree(c);
    SplitJoined(Body(c));
  }

  lemma TailRead(c: Call)
    requires NulFreeCall(c)
    ensures ReadTail(c.app, c.path, c.image, c.format, Numbers(c) + [NUL] + Join(Body(c))) == PartsOf(c)
  {
    BodySplit(c);
    NumbersRead(c);
    hide Numbers, ToI32, ToU64, SplitFields, Join, Body, NulFreeCall;
    BlockThen(Numbers(c), Join(Body(c)));
  }

  lemma BlockThen(b: Bytes, rest: Bytes)
    requires |b| == 24
    ensures var s := b + [NUL] + rest;
      s[..4] == b[..4] && s[4..8] == b[4..8] && s[8..16] == b[8..16] && s[16..24] == b[16..24] && s[25..] == rest
  {
  }

  /** All parts of a NUL-free call can be read off its bytes. */
  lemma PartsRead(c: Call)
    requires NulFreeCall(c)
    ensures ReadParts(KeyBytes(c)) == Some(PartsOf(c))
  {
    hide Numbers, Written, ReadTail, TakeField, PartsOf, Join, NulFree, NulFreeMap;
    var tail := Numbers(c) + [NUL] + (Written(c.config) + [NUL] + Written(c.annotations));
    BodyIsJoined(c);
    FieldTaken(c.format, tail);
    FieldTaken(c.image, c.format + [NUL] + tail);
    FieldTaken(c.path, c.image + [NUL] + (c.format + [NUL] + tail));
    FieldTaken(c.app, c.path + [NUL] + (c.image + [NUL] + (c.format + [NUL] + tail)));
    TailRead(c);
  }

  // ----------------------------------------------------------- where the config may end

  function Half(fs: seq<Bytes>): nat { |fs| / 2 }
  predicate Odd(fs: seq<Bytes>) { |fs| == 2 * Half(fs) + 1 }

  /** Every other field from `from` on: keys of a map, or its values. */
  function EveryOther(fs: seq<Bytes>, from: nat, count: nat): (r: seq<Bytes>)
    requires count > 0 ==> from + 2 * count <= |fs| + 1
    ensures |r| == count
  {
    seq(count, i requires 0 <= i < count => fs[from + 2 * i])
  }

  /** The fields can be read as a config of `p` entries, a separator, and annotations. */
  predicate IsReading(fs: seq<Bytes>, p: nat) {
    && Odd(fs) && p <= Half(fs) && fs[2 * p] == []
    && Sorted(EveryOther(fs, 0, p)) && Sorted(EveryOther(fs, 2 * p + 1, Half(fs) - p))
  }

  function Zip(keys: seq<Bytes>, values: seq<Bytes>): (m: map<Bytes, Bytes>)
    requires |keys| == |values|
    ensures forall k :: k in m <==> k in keys
  {
    if keys == [] then map[]
    else
      assert keys == [keys[0]] + keys[1..];
      Zip(keys[1..], values[1..])[keys[0] := values[0]]
  }

  lemma {:induction false} ZipAt(keys: seq<Bytes>, values: seq<Bytes>, i: nat)
    requires |keys| == |values| && Sorted(keys) && i < |keys|
    ensures keys[i] in Zip(keys, values) && Zip(keys, values)[keys[i]] == values[i]
  {
    if i > 0 {
      LessAsymmetric(keys[0], keys[i]);
      ZipAt(keys[1..], values[1..], i - 1);
    }
  }

  function ConfigAt(fs: seq<Bytes>, p: nat): map<Bytes, Bytes>
    requires Odd(fs) && p <= Half(fs)
  {
    Zip(EveryOther(fs, 0, p), EveryOther(fs, 1, p))
  }

  function AnnotationsAt(fs: seq<Bytes>, p: nat): map<Bytes, Bytes>
    requires Odd(fs) && p <= Half(fs)
  {
    Zip(EveryOther(fs, 2 * p + 1, Half(fs) - p), EveryOther(fs, 2 * p + 2, Half(fs) - p))
  }

  function CallAt(s: Parts, p: nat): Call
    requires Odd(s.fields) && p <= Half(s.fields)
  {
    Call(s.app, s.path, s.image, s.format, s.timeout, s.idleTimeout, s.memory, s.cpus,
         ConfigAt(s.fields, p), AnnotationsAt(s.fields, p))
  }

  ghost function ConfigKeys(c: Call): seq<Bytes> { SortedKeys(c.config.Keys) }
  ghost function AnnotationKeys(c: Call): seq<Bytes> { SortedKeys(c.annotations.Keys) }

  /** The values in the order of the keys. */
  function Values(keys: seq<Bytes>, m: map<Bytes, Bytes>): (r: seq<Bytes>)
    requires forall k :: k in keys ==> k in m
    ensures |r| == |keys|
  {
    seq(|keys|, i requires 0 <= i < |keys| => m[keys[i]])
  }

  ghost function ConfigValues(c: Call): seq<Bytes> { Values(ConfigKeys(c), c.config) }
  ghost function AnnotationValues(c: Call): seq<Bytes> { Values(AnnotationKeys(c), c.annotations) }

  lemma BodyLength(c: Call)
    ensures |Body(c)| == 2 * (|ConfigKeys(c)| + |AnnotationKeys(c)|) + 1
    ensures Half(Body(c)) == |ConfigKeys(c)| + |AnnotationKeys(c)|
    ensures Body(c)[2 * |ConfigKeys(c)|] == []
  {
  }

  lemma BodyInConfig(c: Call, i: nat)
    requires i < |ConfigKeys(c)|
    ensures 2 * i + 1 < |Body(c)|
    ensures Body(c)[2 * i] == ConfigKeys(c)[i] && Body(c)[2 * i + 1] == ConfigValues(c)[i]
  {
    FieldAt(ConfigKeys(c), c.config, i);
  }

  lemma BodyInAnnotations(c: Call, i: nat)
    requires i < |AnnotationKeys(c)|
    ensures var at := 2 * |ConfigKeys(c)| + 1 + 2 * i;
      at + 1 < |Body(c)| && Body(c)[at] == AnnotationKeys(c)[i] && Body(c)[at + 1] == AnnotationValues(c)[i]
  {
    hide FieldsOf, SortedKeys;
    FieldAt(AnnotationKeys(c), c.annotations, i);
  }

  lemma ZipBack(keys: seq<Bytes>, m: map<Bytes, Bytes>)
    requires Sorted(keys) && forall k :: k in keys <==> k in m
    ensures Zip(keys, Values(keys, m)) == m
  {
    var z := Zip(keys, Values(keys, m));
    forall k | k in m ensures k in z && z[k] == m[k] {
      var i :| 0 <= i < |keys| && keys[i] == k;
      ZipAt(keys, Values(keys, m), i);
    }
  }

  /** A call is one reading of its own fields. */
  lemma OwnReading(c: Call)
    ensures var p := |ConfigKeys(c)|;
      Odd(Body(c)) && p <= Half(Body(c)) && IsReading(Body(c), p) && CallAt(PartsOf(c), p) == c
  {
    BodyLength(c);
    OwnIsReading(c);
    OwnMaps(c);
    hide Body, ConfigKeys, AnnotationKeys, IsReading, ConfigAt, AnnotationsAt;
  }

  lemma OwnIsReading(c: Call)
    ensures IsReading(Body(c), |ConfigKeys(c)|)
  {
    BodyLength(c);
    BodyColumns(c);
    hide Body, SortedKeys, EveryOther;
  }

  lemma OwnMaps(c: Call)
    ensures var fs, p := Body(c), |ConfigKeys(c)|;
      Odd(fs) && p <= Half(fs) && ConfigAt(fs, p) == c.config && AnnotationsAt(fs, p) == c.annotations
  {
    BodyLength(c);
    BodyColumns(c);
    ZipBack(ConfigKeys(c), c.config);
    ZipBack(AnnotationKeys(c), c.annotations);
    hide Body, SortedKeys, EveryOther, Zip, ConfigKeys, AnnotationKeys;
  }

  lemma BodyColumns(c: Call)
    ensures var fs, n, m := Body(c), |ConfigKeys(c)|, |AnnotationKeys(c)|;
      && |fs| == 2 * (n + m) + 1
      && EveryOther(fs, 0, n) == ConfigKeys(c) && EveryOther(fs, 1, n) == ConfigValues(c)
      && EveryOther(fs, 2 * n + 1, m) == AnnotationKeys(c) && EveryOther(fs, 2 * n + 2, m) == AnnotationValues(c)
  {
    hide Body, FieldsOf, SortedKeys, ConfigKeys, AnnotationKeys, ConfigValues, AnnotationValues;
    BodyLength(c);
    ColumnLengths(c);
    var fs, n, m := Body(c), |ConfigKeys(c)|, |AnnotationKeys(c)|;
    forall i | 0 <= i < n ensures fs[2 * i] == ConfigKeys(c)[i] && fs[1 + 2 * i] == ConfigValues(c)[i] {
      BodyInConfig(c, i);
    }
    forall i | 0 <= i < m
      ensures fs[2 * n + 1 + 2 * i] == AnnotationKeys(c)[i] && fs[2 * n + 2 + 2 * i] == AnnotationValues(c)[i]
    {
      BodyInAnnotations(c, i);
    }
  }

  lemma ColumnLengths(c: Call)
    ensures |ConfigValues(c)| == |ConfigKeys(c)| && |AnnotationValues(c)| == |AnnotationKeys(c)|
  {
  }

  lemma ZippedKeys(keys: seq<Bytes>, values: seq<Bytes>)
    requires |keys| == |values| && Sorted(keys)
    ensures SortedKeys(Zip(keys, values).Keys) == keys && Values(keys, Zip(keys, values)) == values
  {
    SortedUnique(SortedKeys(Zip(keys, values).Keys), keys);
    forall i | 0 <= i < |keys| ensures Values(keys, Zip(keys, values))[i] == values[i] { ZipAt(keys, values, i); }
  }

  /** Every reading of the fields is a call with the same bytes. */
  lemma ReadingIsCall(c: Call, p: nat)
    requires IsReading(Body(c), p)
    ensures Odd(Body(c)) && p <= Half(Body(c))
    ensures var d := CallAt(PartsOf(c), p); |ConfigKeys(d)| == p && Body(d) == Body(c) && KeyBytes(d) == KeyBytes(c)
  {
    IsReadingFits(Body(c), p);
    var d := CallAt(PartsOf(c), p);
    ReadColumns(Body(c), d, p);
    SameBody(Body(c), d, p);
    SameBytes(c, d);
    hide Body, KeyBytes, IsReading, ConfigKeys;
  }

  lemma ReadColumns(fs: seq<Bytes>, d: Call, p: nat)
    requires IsReading(fs, p) && d.config == ConfigAt(fs, p) && d.annotations == AnnotationsAt(fs, p)
    ensures ConfigKeys(d) == EveryOther(fs, 0, p) && ConfigValues(d) == EveryOther(fs, 1, p)
    ensures AnnotationKeys(d) == EveryOther(fs, 2 * p + 1, Half(fs) - p)
    ensures AnnotationValues(d) == EveryOther(fs, 2 * p + 2, Half(fs) - p)
  {
    hide SortedKeys, Zip, EveryOther, Sorted, ConfigKeys, ConfigValues, AnnotationKeys, AnnotationValues;
    var q := Half(fs) - p;
    ColumnsOf(d, EveryOther(fs, 0, p), EveryOther(fs, 1, p),
              EveryOther(fs, 2 * p + 1, q), EveryOther(fs, 2 * p + 2, q));
  }

  lemma ColumnsOf(d: Call, keys: seq<Bytes>, values: seq<Bytes>, keys': seq<Bytes>, values': seq<Bytes>)
    requires |keys| == |values| && Sorted(keys) && d.config == Zip(keys, values)
    requires |keys'| == |values'| && Sorted(keys') && d.annotations == Zip(keys', values')
    ensures ConfigKeys(d) == keys && ConfigValues(d) == values
    ensures AnnotationKeys(d) == keys' && AnnotationValues(d) == values'
  {
    ZippedKeys(keys, values);
    ZippedKeys(keys', values');
    hide SortedKeys, Zip, Sorted, Values;
  }

  lemma SameBytes(c: Call, d: Call)
    requires Body(c) == Body(d) && d == c.(config := d.config, annotations := d.annotations)
    ensures KeyBytes(c) == KeyBytes(d)
  {
    BodyIsJoined(c);
    BodyIsJoined(d);
    hide Body, Join, Written;
    assert Numbers(c) == Numbers(d);
  }

  lemma SameBody(fs: seq<Bytes>, d: Call, p: nat)
    requires IsReading(fs, p)
    requires ConfigKeys(d) == EveryOther(fs, 0, p) && ConfigValues(d) == EveryOther(fs, 1, p)
    requires AnnotationKeys(d) == EveryOther(fs, 2 * p + 1, Half(fs) - p)
    requires AnnotationValues(d) == EveryOther(fs, 2 * p + 2, Half(fs) - p)
    ensures Body(d) == fs
  {
    hide Body, FieldsOf, SortedKeys, ConfigKeys, AnnotationKeys, ConfigValues, AnnotationValues;
    BodyLength(d);
    forall i | 0 <= i < |fs| ensures Body(d)[i] == fs[i] {
      if i < 2 * p {
        BodyInConfig(d, i / 2);
      } else if i > 2 * p {
        BodyInAnnotations(d, (i - 2 * p - 1) / 2);
      }
    }
  }

  lemma {:induction false} ZipNulFree(keys: seq<Bytes>, values: seq<Bytes>)
    requires |keys| == |values| && NulFreeAll(keys) && NulFreeAll(values)
    ensures NulFreeMap(Zip(keys, values))
  {
    if keys != [] { ZipNulFree(keys[1..], values[1..]); }
  }

  lemma BodyIsNulFree(c: Call)
    requires NulFreeCall(c)
    ensures NulFreeAll(Body(c))
  {
    FieldsAreNulFree(SortedKeys(c.config.Keys), c.config);
    FieldsAreNulFree(SortedKeys(c.annotations.Keys), c.annotations);
    hide FieldsOf, SortedKeys, NulFree;
  }

  lemma ColumnIsNulFree(fs: seq<Bytes>, from: nat, count: nat)
    requires NulFreeAll(fs) && (count > 0 ==> from + 2 * count <= |fs| + 1)
    ensures NulFreeAll(EveryOther(fs, from, count))
  {
  }

  lemma MapsAreNulFree(fs: seq<Bytes>, p: nat)
    requires NulFreeAll(fs) && Odd(fs) && p <= Half(fs)
    ensures NulFreeMap(ConfigAt(fs, p)) && NulFreeMap(AnnotationsAt(fs, p))
  {
    hide NulFree, NulFreeAll, NulFreeMap, Zip, EveryOther;
    var q := Half(fs) - p;
    ColumnIsNulFree(fs, 0, p);
    ColumnIsNulFree(fs, 1, p);
    ColumnIsNulFree(fs, 2 * p + 1, q);
    ColumnIsNulFree(fs, 2 * p + 2, q);
    ZipNulFree(EveryOther(fs, 0, p), EveryOther(fs, 1, p));
    ZipNulFree(EveryOther(fs, 2 * p + 1, q), EveryOther(fs, 2 * p + 2, q));
  }

  lemma ReadingIsNulFree(c: Call, p: nat)
    requires NulFreeCall(c) && IsReading(Body(c), p)
    ensures NulFreeCall(CallAt(PartsOf(c), p))
  {
    BodyIsNulFree(c);
    IsReadingFits(Body(c), p);
    hide Body, NulFree, NulFreeAll, NulFreeMap, IsReading, ConfigAt, AnnotationsAt;
    MapsAreNulFree(Body(c), p);
  }

  ghost predicate Shares(c: Call, d: Call) { NulFreeCall(d) && d != c && KeyBytes(d) == KeyBytes(c) }

  /** Another call with the same bytes is another reading of the fields. */
  lemma SharedIsOtherReading(c: Call)
    requires NulFreeCall(c)
    ensures (exists d :: Shares(c, d)) <==> exists p: nat :: p != |ConfigKeys(c)| && IsReading(Body(c), p)
  {
    hide Body, KeyBytes, IsReading, NulFreeCall, ConfigKeys, CallAt;
    OwnReading(c);
    forall d | Shares(c, d) ensures |ConfigKeys(d)| != |ConfigKeys(c)| && IsReading(Body(c), |ConfigKeys(d)|) {
      PartsRead(c);
      PartsRead(d);
      OwnReading(d);
    }
    forall p: nat | p != |ConfigKeys(c)| && IsReading(Body(c), p) ensures exists d :: Shares(c, d) {
      IsReadingFits(Body(c), p);
      ReadingIsCall(c, p);
      ReadingIsNulFree(c, p);
      assert Shares(c, CallAt(PartsOf(c), p));
    }
  }

  lemma IsReadingFits(fs: seq<Bytes>, p: nat)
    requires IsReading(fs, p)
    ensures Odd(fs) && p <= Half(fs)
  {
  }

  // ---------------------------------------------------------------------- ambiguous calls

  /** With an empty config key, its fields may read as annotations only. */
  ghost predicate ReadsWithoutConfig(c: Call) { [] in c.config && Sorted(ConfigValues(c) + AnnotationKeys(c)) }

  /** Without a config, annotations up to one with an empty value may read as config. */
  ghost predicate ReadsWithConfig(c: Call) {
    var values := AnnotationValues(c);
    var j := IndexOf(values, []);
    c.config == map[] && j < |values| && Sorted(values[..j])
  }

  lemma NothingLess(a: Bytes)
    ensures !Less(a, []) && (Less([], a) <==> a != [])
  {
  }

  lemma NothingBelowEmpty(keys: seq<Bytes>, p: nat)
    requires Sorted(keys) && p < |keys| && keys[p] == []
    ensures p == 0
  {
    NothingLess(keys[0]);
  }

  lemma EarlierReading(c: Call, p: nat)
    requires p < |ConfigKeys(c)|
    ensures IsReading(Body(c), p) <==> p == 0 && ReadsWithoutConfig(c)
  {
    BodyLength(c);
    BodyInConfig(c, p);
    hide Body, FieldsOf, SortedKeys;
    var keys, fs := ConfigKeys(c), Body(c);
    if fs[2 * p] == [] {
      NothingBelowEmpty(keys, p);
      assert keys[0] in keys;
      OddColumn(c);
    } else if p == 0 && [] in keys {
      var i :| 0 <= i < |keys| && keys[i] == [];
      NothingBelowEmpty(keys, i);
    }
  }

  lemma OddColumn(c: Call)
    ensures |Body(c)| == 2 * Half(Body(c)) + 1
    ensures EveryOther(Body(c), 1, Half(Body(c))) == ConfigValues(c) + AnnotationKeys(c)
  {
    hide Body, FieldsOf, SortedKeys, ConfigKeys, AnnotationKeys, ConfigValues, AnnotationValues;
    BodyLength(c);
    ColumnLengths(c);
    var n := |ConfigKeys(c)|;
    forall i | 0 <= i < Half(Body(c)) ensures Body(c)[1 + 2 * i] == (ConfigValues(c) + AnnotationKeys(c))[i] {
      if i < n { BodyInConfig(c, i); } else { BodyInAnnotations(c, i - n); }
    }
  }

  /** All even fields: the config keys, the separator, the annotation values. */
  ghost function EvenFields(c: Call): seq<Bytes> { ConfigKeys(c) + [[]] + AnnotationValues(c) }

  lemma LaterColumns(c: Call, p: nat)
    requires |ConfigKeys(c)| < p <= Half(Body(c))
    ensures var fs, n := Body(c), |ConfigKeys(c)|;
      && Odd(fs) && |EvenFields(c)| == Half(fs) + 1 && Half(fs) - n == |AnnotationKeys(c)|
      && fs[2 * p] == EvenFields(c)[p]
      && EveryOther(fs, 0, p) == EvenFields(c)[..p]
      && EveryOther(fs, 2 * p + 1, Half(fs) - p) == AnnotationKeys(c)[p - n..]
  {
    hide Body, FieldsOf, SortedKeys, ConfigKeys, AnnotationKeys, ConfigValues, AnnotationValues;
    BodyLength(c);
    ColumnLengths(c);
    var fs, n := Body(c), |ConfigKeys(c)|;
    forall i | 0 <= i <= p ensures fs[0 + 2 * i] == EvenFields(c)[i] {
      if i < n {
        BodyInConfig(c, i);
      } else if i > n {
        BodyInAnnotations(c, i - n - 1);
      }
    }
    forall i | 0 <= i < Half(fs) - p ensures fs[2 * p + 1 + 2 * i] == AnnotationKeys(c)[p - n + i] {
      BodyInAnnotations(c, p - n + i);
    }
  }

  lemma SortedAfterEmpty(w: seq<Bytes>, j: nat)
    requires j <= |w|
    ensures Sorted([[]] + w[..j]) <==> Sorted(w[..j]) && forall i :: 0 <= i < j ==> w[i] != []
  {
    var t := [[]] + w[..j];
    forall i | 0 <= i < j ensures t[i + 1] == w[i] && (Less(t[0], t[i + 1]) <==> w[i] != []) { NothingLess(w[i]); }
    if Sorted(t) {
      forall i, k | 0 <= i < k < j ensures Less(w[i], w[k]) { assert Less(t[i + 1], t[k + 1]); }
    }
    if Sorted(w[..j]) {
      forall i, k | 0 < i < k < |t| ensures Less(t[i], t[k]) { assert Less(w[..j][i - 1], w[..j][k - 1]); }
    }
  }

  lemma SuffixSorted(keys: seq<Bytes>, i: nat)
    requires Sorted(keys) && i <= |keys|
    ensures Sorted(keys[i..])
  {
  }

  lemma ReadingPastSeparator(c: Call, p: nat)
    requires |ConfigKeys(c)| < p <= Half(Body(c))
    ensures p < |EvenFields(c)|
    ensures IsReading(Body(c), p) <==> EvenFields(c)[p] == [] && Sorted(EvenFields(c)[..p])
  {
    hide *;
    LaterColumns(c, p);
    KeysAreSorted(c);
    SuffixSorted(AnnotationKeys(c), p - |ConfigKeys(c)|);
    ReadingMeans(Body(c), p);
  }

  lemma KeysAreSorted(c: Call)
    ensures Sorted(ConfigKeys(c)) && Sorted(AnnotationKeys(c))
  {
  }

  lemma ReadingMeans(fs: seq<Bytes>, p: nat)
    requires Odd(fs) && p <= Half(fs)
    ensures IsReading(fs, p) <==>
      fs[2 * p] == [] && Sorted(EveryOther(fs, 0, p)) && Sorted(EveryOther(fs, 2 * p + 1, Half(fs) - p))
  {
  }

  lemma EvenFieldsWithoutConfig(c: Call, p: nat)
    requires |ConfigKeys(c)| == 0 && 0 < p < |EvenFields(c)|
    ensures var w := AnnotationValues(c);
      && p - 1 < |w| && EvenFields(c)[p] == w[p - 1]
      && (Sorted(EvenFields(c)[..p]) <==> Sorted(w[..p - 1]) && forall i :: 0 <= i < p - 1 ==> w[i] != [])
  {
    hide AnnotationValues, ConfigKeys;
    var w := AnnotationValues(c);
    assert EvenFields(c) == [[]] + w;
    assert EvenFields(c)[..p] == [[]] + w[..p - 1];
    SortedAfterEmpty(w, p - 1);
  }

  lemma SortedEvenFields(c: Call, p: nat)
    requires |ConfigKeys(c)| < p < |EvenFields(c)| && Sorted(EvenFields(c)[..p])
    ensures |ConfigKeys(c)| == 0
  {
    NothingBelowEmpty(EvenFields(c)[..p], |ConfigKeys(c)|);
  }

  lemma EvenFieldsLength(c: Call)
    ensures |EvenFields(c)| == Half(Body(c)) + 1 == |ConfigKeys(c)| + |AnnotationValues(c)| + 1
  {
    BodyLength(c);
    ColumnLengths(c);
    hide Body, ConfigKeys, AnnotationValues, AnnotationKeys;
  }

  /** Past the separator only a call without config can be read, up to its first empty value. */
  lemma LaterReading(c: Call, p: nat)
    requires p > |ConfigKeys(c)|
    ensures IsReading(Body(c), p) <==> ReadsWithConfig(c) && p == IndexOf(AnnotationValues(c), []) + 1
  {
    if IsReading(Body(c), p) { IsReadingFits(Body(c), p); }
    NoConfigKeys(c);
    EvenFieldsLength(c);
    if |ConfigKeys(c)| == 0 { ConfigIsEmpty(c); }
    hide Body, ConfigKeys, AnnotationValues, EvenFields, IsReading, Sorted, SortedKeys, FieldsOf;
    if p <= Half(Body(c)) {
      ReadingPastSeparator(c, p);
      if Sorted(EvenFields(c)[..p]) { SortedEvenFields(c, p); }
      if |ConfigKeys(c)| == 0 { EvenFieldsWithoutConfig(c, p); }
    }
  }

  lemma ConfigIsEmpty(c: Call)
    requires |ConfigKeys(c)| == 0
    ensures c.config == map[]
  {
    assert forall k :: k in c.config ==> k in ConfigKeys(c);
  }

  /** A NUL-free call shares its bytes with another one exactly in these two cases. */
  lemma SharedIffAmbiguous(c: Call)
    requires NulFreeCall(c)
    ensures (exists d :: Shares(c, d)) <==> ReadsWithoutConfig(c) || ReadsWithConfig(c)
  {
    hide *;
    SharedIsOtherReading(c);
    var n := |ConfigKeys(c)|;
    forall p: nat | p != n
      ensures IsReading(Body(c), p) <==>
        if p < n then p == 0 && ReadsWithoutConfig(c)
        else ReadsWithConfig(c) && p == IndexOf(AnnotationValues(c), []) + 1
    {
      if p < n { EarlierReading(c, p); } else { LaterReading(c, p); }
    }
    if ReadsWithoutConfig(c) {
      assert n > 0 by { EmptyKeyCounts(c); }
      assert IsReading(Body(c), 0);
    }
    if ReadsWithConfig(c) {
      assert n == 0 by { NoConfigKeys(c); }
      assert IsReading(Body(c), IndexOf(AnnotationValues(c), []) + 1);
    }
  }

  lemma EmptyKeyCounts(c: Call)
    ensures ReadsWithoutConfig(c) ==> |ConfigKeys(c)| > 0
  {
    if ReadsWithoutConfig(c) { assert [] in ConfigKeys(c); }
  }

  lemma NoConfigKeys(c: Call)
    ensures ReadsWithConfig(c) ==> |ConfigKeys(c)| == 0
  {
    if ReadsWithConfig(c) { SortedUnique(ConfigKeys(c), []); }
  }

  // ---------------------------------------------------------------------- round trip

  /** The last even field that is empty, from position `2 * p` down. */
  function LastSeparator(fs: seq<Bytes>, p: nat): (q: nat)
    requires 2 * p < |fs|
    ensures q <= p
  {
    if p == 0 || fs[2 * p] == [] then p else LastSeparator(fs, p - 1)
  }

  /** Reads a whole call off the bytes: the config ends at the last even field that is empty. */
  function Parse(s: Bytes): Option<Call> {
    var parts := ReadParts(s);
    if parts.None? || !Odd(parts.value.fields) then None
    else Some(CallAt(parts.value, LastSeparator(parts.value.fields, Half(parts.value.fields))))
  }

  /** NUL-free, and no annotation value is empty: annotation values are JSON texts. */
  predicate Clean(c: Call) { NulFreeCall(c) && forall k :: k in c.annotations ==> c.annotations[k] != [] }

  lemma {:induction false} SeparatorFound(c: Call, p: nat)
    requires Clean(c) && |ConfigKeys(c)| <= p <= Half(Body(c))
    ensures 2 * p < |Body(c)| && LastSeparator(Body(c), p) == |ConfigKeys(c)|
    decreases p
  {
    hide Body, FieldsOf, NulFreeCall, SortedKeys;
    var n := |ConfigKeys(c)|;
    BodyLength(c);
    if p > n {
      BodyInAnnotations(c, p - n - 1);
      assert AnnotationKeys(c)[p - n - 1] in AnnotationKeys(c);
      SeparatorFound(c, p - 1);
    }
  }

  /** The parser gets the call back. */
  lemma KeyRoundTrip(c: Call)
    requires Clean(c)
    ensures Parse(KeyBytes(c)) == Some(c)
  {
    BodyLength(c);
    hide KeyBytes, Body, ReadParts, CallAt, NulFreeCall, LastSeparator;
    PartsRead(c);
    SeparatorFound(c, Half(Body(c)));
    OwnReading(c);
  }

  /** Two clean calls share the hashed bytes only if they agree in everything the bytes cover. */
  lemma KeyInjective(c: Call, d: Call)
    requires Clean(c) && Clean(d)
    ensures KeyBytes(c) == KeyBytes(d) <==> c == d
  {
    hide KeyBytes, Parse, Clean;
    KeyRoundTrip(c);
    KeyRoundTrip(d);
  }

  // ------------------------------------------------------------------------------ NULs

  lemma WrittenOne(k: Bytes, v: Bytes)
    ensures Written(map[k := v]) == Pair(k, v)
  {
    var m := map[k := v];
    SortedUnique(SortedKeys(m.Keys), [k]);
    assert Pairs([k][1..], m) == [];
    assert Pairs([k], m) == Pair(k, v) + [];
  }

  lemma WrittenTwo(k: Bytes, v: Bytes, l: Bytes, w: Bytes)
    requires Less(k, l)
    ensures k != l && Written(map[k := v, l := w]) == Pair(k, v) + Pair(l, w)
  {
    LessAsymmetric(k, l);
    var m := map[k := v, l := w];
    SortedUnique(SortedKeys(m.Keys), [k, l]);
    assert [k, l][1..] == [l];
    assert Pairs([l][1..], m) == [];
    assert Pairs([l], m) == Pair(l, w) + [];
  }

  /** A config value with NULs passes for a further entry, for example a = "b NUL c NUL d" for
      a = b, c = d. */
  lemma NulInValueExample(c: Call)
    requires c.config == map[[97] := [98, 0, 99, 0, 100]]
    ensures var d := c.(config := map[[97] := [98], [99] := [100]]); d != c && KeyBytes(d) == KeyBytes(c)
  {
    hide Written, SortedKeys;
    var d := c.(config := map[[97] := [98], [99] := [100]]);
    WrittenOne([97], [98, 0, 99, 0, 100]);
    WrittenTwo([97], [98], [99], [100]);
    assert Pair([97], [98, 0, 99, 0, 100]) == Pair([97], [98]) + Pair([99], [100]);
    assert [99] in d.config && [99] !in c.config;
  }

  lemma CutAtNul(s: Bytes) returns (x: Bytes, y: Bytes)
    requires !NulFree(s)
    ensures s == x + [NUL] + y && x != s
  {
    var i := IndexOf(s, NUL);
    x, y := s[..i], s[i + 1..];
  }

  /** The four strings as they are written. */
  function Head(a: Bytes, b: Bytes, c: Bytes, d: Bytes): Bytes {
    a + [NUL] + (b + [NUL] + (c + [NUL] + (d + [NUL])))
  }

  ghost function Tail(c: Call): Bytes { Numbers(c) + [NUL] + (Written(c.config) + [NUL] + Written(c.annotations)) }

  lemma HeadAndTail(c: Call)
    ensures KeyBytes(c) == Head(c.app, c.path, c.image, c.format) + Tail(c)
  {
    hide Numbers, Written;
    HeadThen(c.app, c.path, c.image, c.format, Tail(c));
  }

  lemma HeadThen(a: Bytes, b: Bytes, c: Bytes, d: Bytes, tail: Bytes)
    ensures Head(a, b, c, d) + tail == a + [NUL] + (b + [NUL] + (c + [NUL] + (d + [NUL] + tail)))
  {
    assert c + [NUL] + (d + [NUL]) + tail == c + [NUL] + (d + [NUL] + tail);
    assert b + [NUL] + (c + [NUL] + (d + [NUL])) + tail == b + [NUL] + (c + [NUL] + (d + [NUL]) + tail);
  }

  /** A NUL within one of the strings can pass for the end of it. */
  lemma HeadShifts(a: Bytes, b: Bytes, c: Bytes, d: Bytes, x: Bytes, y: Bytes)
    ensures a == x + [NUL] + y ==> Head(a, b, c, d) == Head(x, y + [NUL] + b, c, d)
    ensures b == x + [NUL] + y ==> Head(a, b, c, d) == Head(a, x, y + [NUL] + c, d)
    ensures c == x + [NUL] + y ==> Head(a, b, c, d) == Head(a, b, x, y + [NUL] + d)
    ensures d == x + [NUL] + y ==> Head(a, b, c, d) == Head(a + [NUL] + b, c, x, y)
  {
  }

  lemma NulInHeadIsShared(c: Call) returns (d: Call)
    requires !(NulFree(c.app) && NulFree(c.path) && NulFree(c.image) && NulFree(c.format))
    ensures d != c && KeyBytes(d) == KeyBytes(c)
  {
    hide KeyBytes, Numbers, NulFree, Head;
    if !NulFree(c.app) {
      var x, y := CutAtNul(c.app);
      d := c.(app := x, path := y + [NUL] + c.path);
      HeadShifts(c.app, c.path, c.image, c.format, x, y);
    } else if !NulFree(c.path) {
      var x, y := CutAtNul(c.path);
      d := c.(path := x, image := y + [NUL] + c.image);
      HeadShifts(c.app, c.path, c.image, c.format, x, y);
    } else if !NulFree(c.image) {
      var x, y := CutAtNul(c.image);
      d := c.(image := x, format := y + [NUL] + c.format);
      HeadShifts(c.app, c.path, c.image, c.format, x, y);
    } else {
      var x, y := CutAtNul(c.format);
      d := c.(app := c.app + [NUL] + c.path, path := c.image, image := x, format := y);
      HeadShifts(c.app, c.path, c.image, c.format, x, y);
    }
    HeadAndTail(c);
    HeadAndTail(d);
    SameNumbers(c, d);
  }

  lemma SameNumbers(c: Call, d: Call)
    requires c.timeout == d.timeout && c.idleTimeout == d.idleTimeout && c.memory == d.memory && c.cpus == d.cpus
    ensures Numbers(c) == Numbers(d)
  {
  }

  /** A single entry with a NUL can be cut at another NUL. */
  lemma OneEntryHasTwin(k: Bytes, v: Bytes) returns (twin: map<Bytes, Bytes>)
    requires !NulFree(k) || !NulFree(v)
    ensures twin != map[k := v] && Written(twin) == Written(map[k := v])
  {
    hide Written, NulFree;
    WrittenOne(k, v);
    if !NulFree(k) {
      var x, y := CutAtNul(k);
      twin := map[x := y + [NUL] + v];
      WrittenOne(x, y + [NUL] + v);
      assert Pair(x, y + [NUL] + v) == Pair(k, v);
      assert x in twin;
    } else {
      var x, y := CutAtNul(v);
      twin := map[k + [NUL] + x := y];
      WrittenOne(k + [NUL] + x, y);
      assert Pair(k + [NUL] + x, y) == Pair(k, v);
      assert k + [NUL] + x in twin;
    }
  }

  /** The entry `l` written into the value of the entry `k`. */
  function Merged(m: map<Bytes, Bytes>, k: Bytes, l: Bytes): (r: map<Bytes, Bytes>)
    requires k in m && l in m && k != l
    ensures r.Keys == m.Keys - {l}
    ensures forall x :: x in r ==> r[x] == if x == k then m[k] + [NUL] + l + [NUL] + m[l] else m[x]
  {
    map x | x in m.Keys - {l} :: if x == k then m[k] + [NUL] + l + [NUL] + m[l] else m[x]
  }

  lemma {:induction false} PairsAgree(keys: seq<Bytes>, m: map<Bytes, Bytes>, r: map<Bytes, Bytes>)
    requires forall k :: k in keys ==> k in m && k in r && m[k] == r[k]
    ensures Pairs(keys, m) == Pairs(keys, r)
  {
    hide Pair;
    if keys != [] { PairsAgree(keys[1..], m, r); }
  }

  lemma MergedKeys(s: set<Bytes>, keys: seq<Bytes>)
    requires IsSortedKeys(s, keys) && |keys| >= 2
    ensures keys[0] != keys[1] && IsSortedKeys(s - {keys[1]}, [keys[0]] + keys[2..])
    ensures keys[0] !in keys[2..] && keys[1] !in keys[2..]
  {
    var rest := [keys[0]] + keys[2..];
    forall i, j | 0 <= i < j < |keys| ensures keys[i] != keys[j] { LessAsymmetric(keys[i], keys[j]); }
    assert forall i :: 0 <= i < |keys| - 2 ==> keys[2..][i] == keys[i + 2];
    assert keys == [keys[0], keys[1]] + keys[2..];
    assert forall i :: 0 < i < |rest| ==> rest[i] == keys[i + 1];
  }

  lemma MergedSorted(m: map<Bytes, Bytes>, keys: seq<Bytes>)
    requires keys == SortedKeys(m.Keys) && |keys| >= 2
    ensures keys[0] in m && keys[1] in m && keys[0] != keys[1]
    ensures SortedKeys(Merged(m, keys[0], keys[1]).Keys) == [keys[0]] + keys[2..]
  {
    MergedKeys(m.Keys, keys);
    assert keys[0] in keys && keys[1] in keys;
    hide SortedKeys;
    SortedUnique(SortedKeys(Merged(m, keys[0], keys[1]).Keys), [keys[0]] + keys[2..]);
  }

  lemma MergedAgrees(m: map<Bytes, Bytes>, keys: seq<Bytes>)
    requires keys == SortedKeys(m.Keys) && |keys| >= 2
    ensures keys[0] in m && keys[1] in m && keys[0] != keys[1]
    ensures var r := Merged(m, keys[0], keys[1]);
      && keys[1] !in r && keys[0] in r && r[keys[0]] == m[keys[0]] + [NUL] + keys[1] + [NUL] + m[keys[1]]
      && forall k :: k in keys[2..] ==> k in m && k in r && m[k] == r[k]
  {
    MergedKeys(m.Keys, keys);
    assert keys[0] in keys && keys[1] in keys;
    assert forall k :: k in keys[2..] ==> k in keys;
  }

  lemma MergedPairs(m: map<Bytes, Bytes>, r: map<Bytes, Bytes>, keys: seq<Bytes>, keys': seq<Bytes>)
    requires |keys| >= 2 && keys' == [keys[0]] + keys[2..]
    requires (forall x :: x in keys ==> x in m) && forall x :: x in keys' ==> x in r
    requires forall x :: x in keys[2..] ==> x in m && x in r && m[x] == r[x]
    requires r[keys'[0]] == m[keys[0]] + [NUL] + keys[1] + [NUL] + m[keys[1]]
    ensures Pairs(keys', r) == Pairs(keys, m)
  {
    hide Pair, Pairs;
    var k, l, rest := keys[0], keys[1], keys[2..];
    PairsAgree(rest, m, r);
    PairMerges(k, m[k], l, m[l]);
    assert keys'[1..] == rest && keys[1..][1..] == rest && keys[1..][0] == l;
    FirstPair(keys', r);
    FirstPair(keys, m);
    FirstPair(keys[1..], m);
  }

  lemma FirstPair(keys: seq<Bytes>, m: map<Bytes, Bytes>)
    requires keys != [] && forall k :: k in keys ==> k in m
    ensures Pairs(keys, m) == Pair(keys[0], m[keys[0]]) + Pairs(keys[1..], m)
  {
  }

  lemma PairMerges(k: Bytes, v: Bytes, l: Bytes, w: Bytes)
    ensures Pair(k, v + [NUL] + l + [NUL] + w) == Pair(k, v) + Pair(l, w)
  {
  }

  /** Of two entries or more, the first two can pass for one. */
  lemma TwoEntriesHaveTwin(m: map<Bytes, Bytes>) returns (twin: map<Bytes, Bytes>)
    requires |SortedKeys(m.Keys)| >= 2
    ensures twin != m && Written(twin) == Written(m)
  {
    hide SortedKeys, Pairs, Sorted, Merged;
    var keys := SortedKeys(m.Keys);
    MergedSorted(m, keys);
    MergedAgrees(m, keys);
    twin := Merged(m, keys[0], keys[1]);
    MergedPairs(m, twin, keys, SortedKeys(twin.Keys));
  }

  lemma NulInMapHasTwin(m: map<Bytes, Bytes>) returns (twin: map<Bytes, Bytes>)
    requires !NulFreeMap(m)
    ensures twin != m && Written(twin) == Written(m)
  {
    hide SortedKeys, Written, NulFree;
    var keys := SortedKeys(m.Keys);
    var k :| k in m && (!NulFree(k) || !NulFree(m[k]));
    assert k in keys;
    if |keys| >= 2 {
      twin := TwoEntriesHaveTwin(m);
    } else {
      assert keys == [k];
      assert m == map[k := m[k]];
      twin := OneEntryHasTwin(k, m[k]);
    }
  }

  lemma SharedByMaps(c: Call, d: Call)
    requires d == c.(config := d.config, annotations := d.annotations)
    requires Written(c.config) == Written(d.config) && Written(c.annotations) == Written(d.annotations)
    ensures KeyBytes(c) == KeyBytes(d)
  {
    hide Written;
    SameNumbers(c, d);
  }

  /** Every call with a NUL anywhere in its strings shares its bytes with another call. */
  lemma NulIsShared(c: Call)
    requires !NulFreeCall(c)
    ensures exists d :: d != c && KeyBytes(d) == KeyBytes(c)
  {
    hide KeyBytes, Written, NulFree, NulFreeMap;
    if !NulFreeMap(c.config) {
      var twin := NulInMapHasTwin(c.config);
      SharedByMaps(c, c.(config := twin));
    } else if !NulFreeMap(c.annotations) {
      var twin := NulInMapHasTwin(c.annotations);
      SharedByMaps(c, c.(annotations := twin));
    } else {
      var d := NulInHeadIsShared(c);
    }
  }

  /** So does, with a call that holds NULs, every call with two entries in one of its maps. */
  lemma TwoEntriesAreShared(c: Call)
    requires |ConfigKeys(c)| >= 2 || |AnnotationKeys(c)| >= 2
    ensures exists d :: d != c && KeyBytes(d) == KeyBytes(c)
  {
    hide KeyBytes, Written, SortedKeys;
    if |ConfigKeys(c)| >= 2 {
      var twin := TwoEntriesHaveTwin(c.config);
      SharedByMaps(c, c.(config := twin));
    } else {
      var twin := TwoEntriesHaveTwin(c.annotations);
      SharedByMaps(c, c.(annotations := twin));
    }
  }
}
