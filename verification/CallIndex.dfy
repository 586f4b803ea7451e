/** The S3 call index: two object keys per call, listed by prefix and marker, against the
    reference listing of the in-memory log store. */
module CallIndex {
  import opened ByteOrder
  import Ids
  import Base64Url
  import GoSort
  import opened Lists

  datatype Call = Call(app: Bytes, path: Bytes, id: Bytes, body: Bytes)

  /** `CallFilter` without time bounds; an empty field does not filter. */
  datatype Filter = Filter(app: Bytes, path: Bytes, cursor: Bytes, perPage: nat)

  datatype Object = CallObject(call: Call) | MarkerObject | LogObject
  type Bucket = map<Bytes, Object>

  datatype Outcome = Page(calls: seq<Call>) | NeedsApp | BadKey(calls: seq<Call>) | Panics

  // ----------------------------------------------------------------------------- keys

  const SLASH: byte := 47
  const CALLS: Bytes := [99, 47]     // "c/"
  const MARKERS: Bytes := [109, 47]  // "m/"
  const LOGS: Bytes := [108, 47]     // "l/"

  predicate NoSlash(s: Bytes) { SLASH !in s }

  predicate GoodId(id: Bytes) { |id| == 26 && Ids.AllInAlphabet(id) }

  function CallKeyFlipped(app: Bytes, id: Bytes): Bytes { CALLS + (app + [SLASH] + id) }

  function CallKey(app: Bytes, id: Bytes): Bytes
    requires Ids.AllInAlphabet(id)
  {
    CallKeyFlipped(app, Ids.Flip(id))
  }

  function MarkerKey(app: Bytes, path: Bytes, id: Bytes): Bytes
    requires Ids.AllInAlphabet(id)
  {
    MARKERS + (app + [SLASH] + (Base64Url.Encode(path) + [SLASH] + Ids.Flip(id)))
  }

  /** `InsertCall`: the call under its key, and an empty marker object. */
  function InsertCall(b: Bucket, c: Call): Bucket
    requires Ids.AllInAlphabet(c.id)
  {
    b[CallKey(c.app, c.id) := CallObject(c)][MarkerKey(c.app, c.path, c.id) := MarkerObject]
  }

  // ------------------------------------------------------------------------ splitting

  /** `strings.Split(s, "/")`. */
  function Split(s: Bytes): seq<Bytes> {
    var i := IndexOf(s, SLASH);
    if i == |s| then [s] else [s[..i]] + Split(s[i + 1..])
  }

  lemma SplitHead(a: Bytes, rest: Bytes)
    requires NoSlash(a)
    ensures Split(a + [SLASH] + rest) == [a] + Split(rest)
  {
    IndexAfter(a, SLASH, rest);
    var s := a + [SLASH] + rest;
    assert s[..|a|] == a && s[|a| + 1..] == rest;
  }

  lemma SplitLast(a: Bytes)
    requires NoSlash(a)
    ensures Split(a) == [a]
  {
    assert IndexOf(a, SLASH) == |a|;
  }

  /** A field that ends with a slash is recognised by its prefix. */
  lemma FieldPrefix(a: Bytes, rest: Bytes, b: Bytes)
    requires NoSlash(a) && NoSlash(b)
    ensures b + [SLASH] <= a + [SLASH] + rest <==> a == b
  {
    var s := a + [SLASH] + rest;
    if b + [SLASH] <= s {
      assert s == b + [SLASH] + s[|b| + 1..];
      IndexAfter(a, SLASH, rest);
      IndexAfter(b, SLASH, s[|b| + 1..]);
      assert a == s[..|a|] && b == s[..|b|];
    }
  }

  lemma FlippedHasNoSlash(id: Bytes)
    requires Ids.AllInAlphabet(id)
    ensures NoSlash(Ids.Flip(id))
  {
    SlashIsForeign();
    hide Ids.InAlphabet, Ids.FlipChar;
    forall i | 0 <= i < |id| ensures Ids.Flip(id)[i] != SLASH { Ids.FlipInAlphabet(id[i]); }
  }

  lemma SlashIsForeign()
    ensures !Ids.InAlphabet(SLASH)
  {
  }

  // ------------------------------------------------------------------------- the index

  predicate GoodCall(c: Call) { c.app != [] && NoSlash(c.app) && GoodId(c.id) }

  /** Both objects of a call. */
  predicate Stored(b: Bucket, c: Call) {
    && GoodCall(c)
    && CallKey(c.app, c.id) in b && b[CallKey(c.app, c.id)] == CallObject(c)
    && MarkerKey(c.app, c.path, c.id) in b
  }

  /** The store holds exactly the objects of the inserted calls, besides log objects. */
  ghost predicate Indexed(b: Bucket, calls: seq<Call>) {
    && (forall c :: c in calls ==> Stored(b, c))
    && (forall k :: k in b ==> LOGS <= k || exists c :: c in calls && HasKey(c, k))
  }

  predicate HasKey(c: Call, k: Bytes) {
    GoodCall(c) && (k == CallKey(c.app, c.id) || k == MarkerKey(c.app, c.path, c.id))
  }

  predicate UniqueIds(calls: seq<Call>) {
    forall i, j :: 0 <= i < j < |calls| ==> calls[i].id != calls[j].id
  }

  /** The key the listing goes by. */
  function KeyFor(f: Filter, c: Call): Bytes
    requires GoodId(c.id)
  {
    if f.path == [] then CallKey(c.app, c.id) else MarkerKey(c.app, c.path, c.id)
  }

  function Prefix(f: Filter): Bytes {
    if f.path == [] then CALLS + (f.app + [SLASH] + [])
    else MARKERS + (f.app + [SLASH] + (Base64Url.Encode(f.path) + [SLASH] + []))
  }

  function Marker(f: Filter): Bytes
    requires Ids.AllInAlphabet(f.cursor)
  {
    if f.cursor == [] then []
    else if f.path == [] then CallKey(f.app, f.cursor)
    else MarkerKey(f.app, f.path, f.cursor)
  }

  // ------------------------------------------------------------------------- reference

  predicate Matches(c: Call, f: Filter) {
    && (f.app == [] || c.app == f.app)
    && (f.path == [] || f.path == c.path)
    && (f.cursor == [] || Less(c.id, f.cursor))
  }

  predicate Descending(page: seq<Call>) {
    forall i, j :: 0 <= i < j < |page| ==> Less(page[j].id, page[i].id)
  }

  /** The page of the reference store: matching calls, newest id first, cut after `perPage`. */
  ghost predicate IsReferencePage(calls: seq<Call>, f: Filter, page: seq<Call>) {
    && Descending(page) && |page| <= f.perPage
    && (forall i :: 0 <= i < |page| ==> page[i] in calls && Matches(page[i], f))
    && (forall c :: c in calls && Matches(c, f) && c !in page ==>
          |page| == f.perPage && forall i :: 0 <= i < |page| ==> Less(c.id, page[i].id))
  }

  lemma SameIdSameCall(calls: seq<Call>, c: Call, d: Call)
    requires UniqueIds(calls) && c in calls && d in calls && c.id == d.id
    ensures c == d
  {
    var i :| 0 <= i < |calls| && calls[i] == c;
    var j :| 0 <= j < |calls| && calls[j] == d;
  }

  /** No call appears in a descending page twice. */
  lemma LaterIsNew(p: seq<Call>, k: nat)
    requires Descending(p) && k < |p|
    ensures p[k] !in p[..k]
  {
    forall m | 0 <= m < k ensures p[m] != p[k] { LessAsymmetric(p[k].id, p[m].id); }
  }

  /** Where two reference pages first part, neither can be ahead of the other. */
  lemma NotAbove(calls: seq<Call>, f: Filter, p: seq<Call>, q: seq<Call>, k: nat)
    requires IsReferencePage(calls, f, p) && IsReferencePage(calls, f, q)
    requires k < |p| && k < |q| && p[..k] == q[..k]
    ensures !Less(p[k].id, q[k].id)
  {
    LaterIsNew(q, k);
    if q[k] in p {
      var m :| 0 <= m < |p| && p[m] == q[k];
      assert p[..k] == q[..k] && q[k] !in p[..k];
      GoSort.InPrefix(p, k, m);
      if m > k { LessAsymmetric(p[m].id, p[k].id); } else { LessIrreflexive(p[k].id); }
    } else {
      LessAsymmetric(q[k].id, p[k].id);
    }
  }

  /** A reference page that goes on where another ended proves that page full. */
  lemma NotShorter(calls: seq<Call>, f: Filter, p: seq<Call>, q: seq<Call>)
    requires IsReferencePage(calls, f, p) && IsReferencePage(calls, f, q)
    requires |q| <= |p| && q == p[..|q|]
    ensures p == q
  {
    if |q| < |p| {
      LaterIsNew(p, |q|);
    }
  }

  /** There is only one reference page. */
  lemma {:induction false} ReferencePageUnique(calls: seq<Call>, f: Filter, p: seq<Call>, q: seq<Call>, k: nat)
    requires UniqueIds(calls) && IsReferencePage(calls, f, p) && IsReferencePage(calls, f, q)
    requires k <= |p| && k <= |q| && p[..k] == q[..k]
    ensures p == q
    decreases |p| - k
  {
    if k < |p| && k < |q| {
      NotAbove(calls, f, p, q, k);
      NotAbove(calls, f, q, p, k);
      LessTotal(p[k].id, q[k].id);
      SameIdSameCall(calls, p[k], q[k]);
      assert p[..k + 1] == p[..k] + [p[k]] && q[..k + 1] == q[..k] + [q[k]];
      ReferencePageUnique(calls, f, p, q, k + 1);
    } else if k == |q| {
      assert q == q[..k];
      NotShorter(calls, f, p, q);
    } else {
      assert p == p[..k];
      NotShorter(calls, f, q, p);
    }
  }

  lemma OnlyPage(calls: seq<Call>, f: Filter, page: seq<Call>)
    requires UniqueIds(calls)
    ensures (forall p :: IsReferencePage(calls, f, p) <==> p == page) <==> IsReferencePage(calls, f, page)
  {
    if IsReferencePage(calls, f, page) {
      forall p | IsReferencePage(calls, f, p) ensures p == page { ReferencePageUnique(calls, f, p, page, 0); }
    }
  }

  // ------------------------------------------------------------- what the listing finds

  /** Flipping also turns around how a cursor compares with the ids it is a prefix of. */
  lemma {:induction false} FlippedCursor(cursor: Bytes, id: Bytes)
    requires Ids.AllInAlphabet(cursor) && Ids.AllInAlphabet(id) && |cursor| <= |id|
    ensures Less(Ids.Flip(cursor), Ids.Flip(id)) <==> Less(id, cursor) || (|cursor| < |id| && cursor <= id)
  {
    var n := |cursor|;
    assert id == id[..n] + id[n..] && cursor == cursor + [];
    assert Ids.Flip(id) == Ids.Flip(id[..n]) + Ids.Flip(id[n..]);
    assert Ids.Flip(cursor) == Ids.Flip(cursor) + [];
    Ids.FlipReversesOrder(cursor, id[..n]);
    LessConcat(Ids.Flip(cursor), [], Ids.Flip(id[..n]), Ids.Flip(id[n..]));
    LessConcat(id[..n], id[n..], cursor, []);
    Ids.FlipInvolution(cursor);
    Ids.FlipInvolution(id[..n]);
  }

  /** The part of a key before the id. */
  function Stem(f: Filter, c: Call): Bytes {
    if f.path == [] then CALLS + (c.app + [SLASH] + [])
    else MARKERS + (c.app + [SLASH] + (Base64Url.Encode(c.path) + [SLASH] + []))
  }

  lemma KeyIsStemAndId(f: Filter, c: Call)
    requires GoodId(c.id)
    ensures KeyFor(f, c) == Stem(f, c) + Ids.Flip(c.id)
  {
    hide Ids.Flip, Base64Url.Encode;
  }

  predicate InScope(c: Call, f: Filter) { c.app == f.app && (f.path == [] || c.path == f.path) }

  /** The prefix selects the calls of the app and path. */
  lemma PrefixSelects(f: Filter, c: Call)
    requires GoodCall(c) && NoSlash(f.app)
    ensures Prefix(f) <= KeyFor(f, c) <==> InScope(c, f)
    ensures InScope(c, f) ==> Prefix(f) == Stem(f, c)
  {
    hide Ids.Flip, Base64Url.Encode;
    var key := KeyFor(f, c);
    if f.path == [] {
      var rest := Ids.Flip(c.id);
      FieldPrefix(c.app, rest, f.app);
      assert f.app + [SLASH] + [] == f.app + [SLASH];
      assert key[2..] == c.app + [SLASH] + rest && Prefix(f)[2..] == f.app + [SLASH];
      TaggedPrefix(CALLS, f.app + [SLASH], c.app + [SLASH] + rest);
    } else {
      var e, d := Base64Url.Encode(c.path), Base64Url.Encode(f.path);
      var rest := Ids.Flip(c.id);
      Base64Url.HasNoSlash(c.path);
      Base64Url.HasNoSlash(f.path);
      Base64Url.Injective(c.path, f.path);
      FieldPrefix(c.app, e + [SLASH] + rest, f.app);
      FieldPrefix(e, rest, d);
      assert d + [SLASH] + [] == d + [SLASH];
      TaggedPrefix(MARKERS, f.app + [SLASH] + (d + [SLASH]), c.app + [SLASH] + (e + [SLASH] + rest));
      TwoFields(f.app + [SLASH], d + [SLASH], c.app + [SLASH] + (e + [SLASH] + rest));
      if c.app == f.app {
        TaggedPrefix(f.app + [SLASH], d + [SLASH], e + [SLASH] + rest);
      }
    }
  }

  lemma TaggedPrefix(tag: Bytes, p: Bytes, s: Bytes)
    ensures tag + p <= tag + s <==> p <= s
  {
    if tag + p <= tag + s {
      assert (tag + s)[|tag|..] == s && (tag + p)[|tag|..] == p;
      assert forall i :: 0 <= i < |p| ==> p[i] == (tag + p)[|tag| + i] && s[i] == (tag + s)[|tag| + i];
    }
  }

  lemma TwoFields(p: Bytes, q: Bytes, s: Bytes)
    ensures p + q <= s ==> p <= s
  {
    if p + q <= s { assert forall i :: 0 <= i < |p| ==> p[i] == (p + q)[i]; }
  }

  /** Listed keys are in reverse order of the ids. */
  lemma KeysReverseIds(f: Filter, c: Call, d: Call)
    requires GoodCall(c) && GoodCall(d) && Stem(f, c) == Stem(f, d)
    ensures Less(KeyFor(f, c), KeyFor(f, d)) <==> Less(d.id, c.id)
    ensures KeyFor(f, c) == KeyFor(f, d) <==> c.id == d.id
  {
    hide KeyFor, Stem, Ids.Flip;
    KeyIsStemAndId(f, c);
    KeyIsStemAndId(f, d);
    LessPrefix(Stem(f, c), Ids.Flip(c.id), Ids.Flip(d.id));
    Ids.FlipReversesOrder(c.id, d.id);
    LessTotal(c.id, d.id);
    LessIrreflexive(KeyFor(f, c));
    Ids.FlipReversesOrder(d.id, c.id);
    LessPrefix(Stem(f, c), Ids.Flip(d.id), Ids.Flip(c.id));
  }

  /** A cursor shorter than the ids it is a prefix of. */
  predicate Extends(c: Call, f: Filter) { f.cursor != [] && |f.cursor| < |c.id| && f.cursor <= c.id }

  predicate NoneExtends(calls: seq<Call>, f: Filter) {
    forall c :: c in calls && InScope(c, f) ==> !Extends(c, f)
  }

  predicate GoodFilter(f: Filter) {
    f.app != [] && NoSlash(f.app) && |f.cursor| <= 26 && Ids.AllInAlphabet(f.cursor)
  }

  /** S3 lists what the reference lists, and also the calls whose id extends a short cursor. */
  lemma ListedIffMatches(f: Filter, c: Call)
    requires GoodFilter(f) && GoodCall(c)
    ensures Prefix(f) <= KeyFor(f, c) && Less(Marker(f), KeyFor(f, c))
       <==> Matches(c, f) || (InScope(c, f) && Extends(c, f))
  {
    hide Ids.Flip, KeyFor, Stem, Prefix, Base64Url.Encode, Ids.AllInAlphabet;
    PrefixSelects(f, c);
    if InScope(c, f) {
      KeyIsStemAndId(f, c);
      if f.cursor != [] {
        MarkerIsStemAndCursor(f, c);
        LessPrefix(Stem(f, c), Ids.Flip(f.cursor), Ids.Flip(c.id));
        FlippedCursor(f.cursor, c.id);
      }
    }
  }

  lemma MarkerIsStemAndCursor(f: Filter, c: Call)
    requires GoodFilter(f) && InScope(c, f) && f.cursor != []
    ensures Marker(f) == Stem(f, c) + Ids.Flip(f.cursor)
  {
    hide Ids.Flip, Base64Url.Encode;
  }

  lemma KeyByKind(f: Filter, c: Call, k: Bytes)
    requires HasKey(c, k) && Prefix(f) <= k
    ensures k == KeyFor(f, c)
  {
    hide Ids.Flip, Base64Url.Encode, Ids.AllInAlphabet, NoSlash;
    assert k[0] == Prefix(f)[0];
  }

  /** Every object under the prefix belongs to an inserted call of the app and path. */
  lemma ListedIsSomeCall(b: Bucket, calls: seq<Call>, f: Filter, k: Bytes) returns (c: Call)
    requires Indexed(b, calls) && GoodFilter(f) && k in b && Prefix(f) <= k
    ensures c in calls && GoodCall(c) && InScope(c, f) && k == KeyFor(f, c)
  {
    assert !(LOGS <= k) by { assert k[0] == Prefix(f)[0]; }
    hide Ids.Flip, Base64Url.Encode, Ids.AllInAlphabet, NoSlash, Prefix, KeyFor, CallKey, MarkerKey;
    c :| c in calls && HasKey(c, k);
    KeyByKind(f, c, k);
    PrefixSelects(f, c);
  }

  datatype Fetched = Got(call: Call) | Skipped | Invalid

  /** One turn of the loop: take the key apart, download the call object. */
  function Lookup(b: Bucket, f: Filter, key: Bytes): Fetched {
    var fields := Split(key);
    if |fields| != (if f.path != [] then 4 else 3) then Invalid
    else
      var name := CallKeyFlipped(fields[1], if f.path != [] then fields[3] else fields[2]);
      if name in b && b[name].CallObject? then Got(b[name].call) else Skipped
  }

  lemma ThreeFields(a: Bytes, b: Bytes, c: Bytes)
    requires NoSlash(a) && NoSlash(b) && NoSlash(c)
    ensures Split(a + [SLASH] + (b + [SLASH] + c)) == [a, b, c]
  {
    SplitHead(a, b + [SLASH] + c);
    SplitHead(b, c);
    SplitLast(c);
  }

  lemma SplitOfKey(f: Filter, c: Call)
    requires GoodCall(c)
    ensures f.path == [] ==> Split(KeyFor(f, c)) == [[99], c.app, Ids.Flip(c.id)]
    ensures f.path != [] ==> Split(KeyFor(f, c)) == [[109], c.app, Base64Url.Encode(c.path), Ids.Flip(c.id)]
  {
    hide Ids.Flip, Base64Url.Encode, Ids.AllInAlphabet, Split;
    var id := Ids.Flip(c.id);
    FlippedHasNoSlash(c.id);
    var e := Base64Url.Encode(c.path);
    Base64Url.HasNoSlash(c.path);
    if f.path == [] {
      ThreeFields([99], c.app, id);
      assert KeyFor(f, c) == [99] + [SLASH] + (c.app + [SLASH] + id);
    } else {
      ThreeFields(c.app, e, id);
      SplitHead([109], c.app + [SLASH] + (e + [SLASH] + id));
      assert KeyFor(f, c) == [109] + [SLASH] + (c.app + [SLASH] + (e + [SLASH] + id));
    }
  }

  /** From a listed key the loop gets back to the call. */
  lemma LookupFinds(b: Bucket, calls: seq<Call>, f: Filter, c: Call)
    requires Indexed(b, calls) && c in calls && GoodCall(c)
    ensures Lookup(b, f, KeyFor(f, c)) == Got(c)
  {
    hide Ids.Flip, Base64Url.Encode, Ids.AllInAlphabet, Split, KeyFor;
    SplitOfKey(f, c);
  }

  // ---------------------------------------------------------------------------- S3 side

  predicate Eligible(b: Bucket, prefix: Bytes, marker: Bytes, k: Bytes) {
    k in b && prefix <= k && Less(marker, k)
  }

  /** The least `max` keys with the prefix, strictly after the marker, in order. */
  ghost predicate IsListing(b: Bucket, prefix: Bytes, marker: Bytes, max: nat, keys: seq<Bytes>) {
    && Sorted(keys) && |keys| <= max
    && (forall i :: 0 <= i < |keys| ==> Eligible(b, prefix, marker, keys[i]))
    && (forall k :: Eligible(b, prefix, marker, k) && k !in keys ==>
          |keys| == max && forall i :: 0 <= i < |keys| ==> Less(keys[i], k))
  }

  method LeastKey(s: set<Bytes>) returns (k: Bytes)
    requires s != {}
    ensures k in s && forall x :: x in s && x != k ==> Less(k, x)
  {
    k :| k in s;
    var rest := s - {k};
    while rest != {}
      invariant k in s && k !in rest && rest <= s
      invariant forall x :: x in s - rest && x != k ==> Less(k, x)
      decreases |rest|
    {
      var x :| x in rest;
      LessTotal(k, x);
      if Less(x, k) {
        forall y | y in s - rest && y != k ensures Less(x, y) { LessTransitive(x, k, y); }
        k := x;
      }
      rest := rest - {x};
    }
  }

  method ListObjects(b: Bucket, prefix: Bytes, marker: Bytes, max: nat) returns (keys: seq<Bytes>)
    ensures IsListing(b, prefix, marker, max, keys)
  {
    var rest := set k | k in b && Eligible(b, prefix, marker, k);
    keys := [];
    while rest != {} && |keys| < max
      invariant Sorted(keys) && |keys| <= max
      invariant forall k :: Eligible(b, prefix, marker, k) <==> k in rest || k in keys
      invariant forall k, i :: k in rest && 0 <= i < |keys| ==> Less(keys[i], k)
      decreases |rest|
    {
      var k := LeastKey(rest);
      keys := keys + [k];
      rest := rest - {k};
    }
  }

  /** `GetCalls` of the S3 store, as it treats any bucket and any filter. */
  method GetCalls(b: Bucket, f: Filter, ghost calls: seq<Call>) returns (r: Outcome)
    ensures f.app == [] <==> r.NeedsApp?
    ensures r.Panics? <==> f.app != [] && !(|f.cursor| <= 26 && Ids.AllInAlphabet(f.cursor))
    ensures Indexed(b, calls) && UniqueIds(calls) && GoodFilter(f) ==>
      && r.Page?
      && ((forall p :: IsReferencePage(calls, f, p) <==> p == r.calls) <==> f.perPage == 0 || NoneExtends(calls, f))
  {
    hide Indexed, Prefix, KeyFor, GoodCall, Lookup, IsReferencePage, Ids.AllInAlphabet, Ids.Flip;
    if f.app == [] {
      return NeedsApp;
    }
    var flipped := Ids.EncodeDescending(f.cursor);
    if flipped.None? {
      return Panics;
    }
    var keys := ListObjects(b, Prefix(f), Marker(f), f.perPage);
    var page: seq<Call> := [];
    ghost var good := Indexed(b, calls) && GoodFilter(f);
    var i := 0;
    while i < |keys|
      invariant 0 <= i <= |keys|
      invariant good ==> IsFetched(calls, f, keys[..i], page)
    {
      if |page| == f.perPage {
        break;
      }
      if good {
        var c := ListedIsSomeCall(b, calls, f, keys[i]);
        LookupFinds(b, calls, f, c);
      }
      match Lookup(b, f, keys[i]) {
        case Invalid => return BadKey(page);
        case Skipped =>
        case Got(call) => page := page + [call];
      }
      assert keys[..i + 1] == keys[..i] + [keys[i]];
      i := i + 1;
    }
    assert i == |keys| ==> keys[..i] == keys;
    if good && UniqueIds(calls) {
      ListingIsReferencePage(b, calls, f, keys, page);
      OnlyPage(calls, f, page);
    }
    return Page(page);
  }

  /** The page holds the call of each key. */
  ghost predicate IsFetched(calls: seq<Call>, f: Filter, keys: seq<Bytes>, page: seq<Call>) {
    && |page| == |keys|
    && forall i :: 0 <= i < |page| ==>
         page[i] in calls && GoodCall(page[i]) && InScope(page[i], f) && keys[i] == KeyFor(f, page[i])
  }

  /** The listed keys name the reference page, unless a short cursor lets in its extensions. */
  lemma ListingIsReferencePage(b: Bucket, calls: seq<Call>, f: Filter, keys: seq<Bytes>, page: seq<Call>)
    requires Indexed(b, calls) && UniqueIds(calls) && GoodFilter(f)
    requires IsListing(b, Prefix(f), Marker(f), f.perPage, keys) && IsFetched(calls, f, keys, page)
    ensures IsReferencePage(calls, f, page) <==> f.perPage == 0 || NoneExtends(calls, f)
  {
    if f.perPage > 0 {
      if NoneExtends(calls, f) {
        ListedPageMatches(b, calls, f, keys, page);
      } else {
        var c :| c in calls && InScope(c, f) && Extends(c, f);
        FirstIsBeyondCursor(b, calls, f, keys, page, c);
      }
    }
  }

  /** The newest listed call is not older than an id that extends the cursor. */
  lemma FirstIsBeyondCursor(b: Bucket, calls: seq<Call>, f: Filter, keys: seq<Bytes>, page: seq<Call>, c: Call)
    requires Indexed(b, calls) && GoodFilter(f) && f.perPage > 0
    requires IsListing(b, Prefix(f), Marker(f), f.perPage, keys) && IsFetched(calls, f, keys, page)
    requires c in calls && InScope(c, f) && Extends(c, f)
    ensures |page| > 0 && !Matches(page[0], f)
  {
    hide Prefix, KeyFor, Ids.AllInAlphabet, Marker, Stem;
    ListedIffMatches(f, c);
    KeyInBucket(b, calls, f, c);
    assert Eligible(b, Prefix(f), Marker(f), KeyFor(f, c));
    assert |keys| > 0;
    PrefixSelects(f, c);
    PrefixSelects(f, page[0]);
    KeysReverseIds(f, page[0], c);
    assert c.id == page[0].id || Less(c.id, page[0].id);
    NotBelowPrefix(f.cursor, c.id);
    if Less(c.id, page[0].id) && Less(page[0].id, f.cursor) { LessTransitive(c.id, page[0].id, f.cursor); }
  }

  /** The first character of an id as cursor: S3 lists the call, the reference does not. */
  lemma ShortCursorDiffers(c: Call)
    requires GoodCall(c)
    ensures var b, f := InsertCall(map[], c), Filter(c.app, [], c.id[..1], 1);
      && Indexed(b, [c]) && UniqueIds([c]) && GoodFilter(f)
      && IsListing(b, Prefix(f), Marker(f), 1, [KeyFor(f, c)]) && Lookup(b, f, KeyFor(f, c)) == Got(c)
      && IsReferencePage([c], f, []) && !IsReferencePage([c], f, [c])
  {
    var b, f := InsertCall(map[], c), Filter(c.app, [], c.id[..1], 1);
    InsertKeepsIndexed(map[], [], c);
    assert [] + [c] == [c];
    NotBelowPrefix(f.cursor, c.id);
    hide Ids.Flip, KeyFor, Prefix, Marker, InsertCall, Stored, HasKey;
    ListedIffMatches(f, c);
    LookupFinds(b, [c], f, c);
    KeyInBucket(b, [c], f, c);
    forall k | k in b && Prefix(f) <= k ensures k == KeyFor(f, c) { var d := ListedIsSomeCall(b, [c], f, k); }
    assert !Matches(c, f);
  }

  lemma NotBelowPrefix(p: Bytes, s: Bytes)
    requires p <= s
    ensures !Less(s, p)
  {
    assert s == p + s[|p|..] && p == p + [];
    LessPrefix(p, s[|p|..], []);
  }

  lemma ListedPageMatches(b: Bucket, calls: seq<Call>, f: Filter, keys: seq<Bytes>, page: seq<Call>)
    requires Indexed(b, calls) && UniqueIds(calls) && GoodFilter(f) && NoneExtends(calls, f)
    requires IsListing(b, Prefix(f), Marker(f), f.perPage, keys) && IsFetched(calls, f, keys, page)
    ensures IsReferencePage(calls, f, page)
  {
    hide Prefix, KeyFor, Ids.AllInAlphabet, Marker, Matches, Extends, Indexed, Stem, UniqueIds;
    forall i | 0 <= i < |page| ensures Matches(page[i], f) && Prefix(f) == Stem(f, page[i]) {
      ListedIffMatches(f, page[i]);
      PrefixSelects(f, page[i]);
    }
    forall i, j | 0 <= i < j < |page| ensures Less(page[j].id, page[i].id) {
      KeysReverseIds(f, page[i], page[j]);
    }
    forall c | c in calls && Matches(c, f) && c !in page
      ensures |page| == f.perPage && forall i :: 0 <= i < |page| ==> Less(c.id, page[i].id)
    {
      KeyOfMatching(b, calls, f, c);
      forall i | 0 <= i < |page|
        ensures KeyFor(f, c) != keys[i] && (Less(keys[i], KeyFor(f, c)) ==> Less(c.id, page[i].id))
      {
        KeysReverseIds(f, page[i], c);
        if page[i].id == c.id { SameIdSameCall(calls, page[i], c); }
      }
    }
  }

  lemma KeyInBucket(b: Bucket, calls: seq<Call>, f: Filter, c: Call)
    requires Indexed(b, calls) && c in calls
    ensures GoodCall(c) && KeyFor(f, c) in b
  {
    hide CallKey, MarkerKey;
  }

  lemma KeyOfMatching(b: Bucket, calls: seq<Call>, f: Filter, c: Call)
    requires Indexed(b, calls) && GoodFilter(f) && c in calls && Matches(c, f)
    ensures GoodCall(c) && Prefix(f) == Stem(f, c)
    ensures Eligible(b, Prefix(f), Marker(f), KeyFor(f, c))
  {
    hide Ids.Flip, Base64Url.Encode, GoodId, Ids.AllInAlphabet, Prefix, Stem, Marker;
    ListedIffMatches(f, c);
    PrefixSelects(f, c);
  }

  /** `InsertCall` of a call with a new id keeps the index complete and exact. */
  lemma InsertKeepsIndexed(b: Bucket, calls: seq<Call>, c: Call)
    requires Indexed(b, calls) && UniqueIds(calls) && GoodCall(c)
    requires forall d :: d in calls ==> d.id != c.id
    ensures Indexed(InsertCall(b, c), calls + [c]) && UniqueIds(calls + [c])
  {
    hide Ids.AllInAlphabet, CallKey, MarkerKey, Stored, HasKey, InsertCall, NoSlash;
    forall d | d in calls + [c] ensures Stored(InsertCall(b, c), d) { InsertStores(b, c, d); }
    forall k | k in InsertCall(b, c) ensures LOGS <= k || exists d :: d in calls + [c] && HasKey(d, k) {
      InsertedKeys(b, c, k);
      if k in b && !(LOGS <= k) {
        var d :| d in calls && HasKey(d, k);
        assert d in calls + [c];
      } else {
        assert c in calls + [c];
      }
    }
  }

  lemma InsertStores(b: Bucket, c: Call, d: Call)
    requires GoodCall(c) && (d == c || (Stored(b, d) && d.id != c.id))
    ensures Stored(InsertCall(b, c), d)
  {
    hide Ids.AllInAlphabet, CallKey, MarkerKey;
    KeysApart(d, c);
  }

  lemma InsertedKeys(b: Bucket, c: Call, k: Bytes)
    requires GoodCall(c) && k in InsertCall(b, c)
    ensures k in b || HasKey(c, k)
  {
    hide Ids.AllInAlphabet, CallKey, MarkerKey;
  }

  lemma KeysApart(d: Call, c: Call)
    requires GoodCall(c) && GoodCall(d)
    ensures CallKey(d.app, d.id) != MarkerKey(c.app, c.path, c.id)
    ensures d.id != c.id ==> CallKey(d.app, d.id) != CallKey(c.app, c.id)
  {
    hide Ids.Flip, Base64Url.Encode, Ids.AllInAlphabet;
    assert CallKey(d.app, d.id)[0] == 99 && MarkerKey(c.app, c.path, c.id)[0] == 109;
    if CallKey(d.app, d.id) == CallKey(c.app, c.id) {
      var s := CallKey(c.app, c.id);
      assert s[2..] == c.app + [SLASH] + Ids.Flip(c.id);
      assert s[2..] == d.app + [SLASH] + Ids.Flip(d.id);
      IndexAfter(c.app, SLASH, Ids.Flip(c.id));
      IndexAfter(d.app, SLASH, Ids.Flip(d.id));
      assert Ids.Flip(c.id) == s[2..][|c.app| + 1..] == Ids.Flip(d.id);
      Ids.FlipInvolution(c.id);
      Ids.FlipInvolution(d.id);
    }
  }

  // ------------------------------------------------------------------- reference store

  /** `sort.Reverse(sortC(...))`. */
  function NewerFirst(): (Call, Call) -> bool { (c: Call, d: Call) => Less(d.id, c.id) }

  lemma NewerFirstIsOrder()
    ensures GoSort.WeakOrder(NewerFirst())
  {
    forall c: Call, d: Call | Less(d.id, c.id) ensures !Less(c.id, d.id) { LessAsymmetric(d.id, c.id); }
    forall c: Call, d: Call, e: Call | !Less(d.id, c.id) && !Less(e.id, d.id) ensures !Less(e.id, c.id) {
      NotLessTransitive(e.id, d.id, c.id);
    }
  }

  function Wanted(f: Filter): Call -> bool { (c: Call) => Matches(c, f) }

  lemma {:induction false} FilteredDescending(s: seq<Call>, f: Filter)
    requires Descending(s)
    ensures Descending(Filtered(s, Wanted(f)))
  {
    if s != [] {
      var n := |s| - 1;
      FilteredDescending(s[..n], f);
      var p := Filtered(s[..n], Wanted(f));
      forall i | 0 <= i < |p| ensures Less(s[n].id, p[i].id) { FilteredMembers(s[..n], Wanted(f), p[i]); }
    }
  }

  /** Sorting distinct ids leaves them strictly descending. */
  lemma SortedIsDescending(was: seq<Call>, s: seq<Call>)
    requires UniqueIds(was) && multiset(was) == multiset(s) && GoSort.InOrder(s, NewerFirst())
    ensures Descending(s)
  {
    forall i, j | 0 <= i < j < |s| ensures Less(s[j].id, s[i].id) {
      assert s[i] in multiset(s) && s[j] in multiset(s);
      if s[i].id == s[j].id {
        SameIdSameCall(was, s[i], s[j]);
        GoSort.OnceEach(was, s[i]);
        GoSort.TwiceIn(s, i, j);
      }
      LessTotal(s[i].id, s[j].id);
    }
  }

  lemma SortedPage(was: seq<Call>, s: seq<Call>, f: Filter, i: nat)
    requires UniqueIds(was) && multiset(was) == multiset(s) && GoSort.InOrder(s, NewerFirst()) && i <= |s|
    requires |Filtered(s[..i], Wanted(f))| <= f.perPage && (i == |s| || |Filtered(s[..i], Wanted(f))| == f.perPage)
    ensures IsReferencePage(was, f, Filtered(s[..i], Wanted(f)))
  {
    hide Matches;
    SortedIsDescending(was, s);
    var page := Filtered(s[..i], Wanted(f));
    FilteredDescending(s[..i], f);
    forall k | 0 <= k < |page| ensures page[k] in was && page[k] in s[..i] && Matches(page[k], f) {
      FilteredMembers(s[..i], Wanted(f), page[k]);
      assert page[k] in multiset(s);
    }
    forall c | c in was && Matches(c, f) && c !in page
      ensures |page| == f.perPage && forall k :: 0 <= k < |page| ==> Less(c.id, page[k].id)
    {
      FilteredMembers(s[..i], Wanted(f), c);
      assert c in multiset(s);
      var j :| 0 <= j < |s| && s[j] == c;
      GoSort.InPrefix(s, i, j);
      forall k | 0 <= k < |page| ensures Less(c.id, page[k].id) {
        var m :| 0 <= m < i && s[..i][m] == page[k];
      }
    }
  }

  /** The in-memory log store. */
  class Mock {
    var calls: seq<Call>

    constructor (calls: seq<Call>)
      ensures this.calls == calls
    {
      this.calls := calls;
    }

    method InsertCall(c: Call)
      modifies this
      ensures calls == old(calls) + [c]
    {
      calls := calls + [c];
    }

    /** `GetCalls`: sorts the store in place, then filters up to a full page. */
    method GetCalls(f: Filter) returns (page: seq<Call>)
      modifies this
      ensures multiset(calls) == multiset(old(calls)) && GoSort.InOrder(calls, NewerFirst())
      ensures UniqueIds(old(calls)) ==> IsReferencePage(old(calls), f, page)
    {
      NewerFirstIsOrder();
      calls := GoSort.Sort(calls, NewerFirst());
      page := [];
      var i := 0;
      while i < |calls|
        invariant 0 <= i <= |calls|
        invariant multiset(calls) == multiset(old(calls)) && GoSort.InOrder(calls, NewerFirst())
        invariant page == Filtered(calls[..i], Wanted(f)) && |page| <= f.perPage
      {
        if |page| == f.perPage {
          break;
        }
        if Matches(calls[i], f) {
          page := page + [calls[i]];
        }
        assert calls[..i + 1][..i] == calls[..i];
        i := i + 1;
      }
      if UniqueIds(old(calls)) {
        SortedPage(old(calls), calls, f, i);
      }
    }
  }
}
