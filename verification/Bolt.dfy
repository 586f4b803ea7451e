/** The Bolt message queue: three priorities, each a bucket of queued jobs and a
    bucket of reservations, all keyed by bytes; and the ledger it implements. */
module Bolt {
  import opened Words
  import opened ByteOrder
  import opened BoltLedger

  // ----------------------------------------------------------------------------- keys

  const J_COLON: Bytes := [0x6A, 0x3A]   // "j:"
  const R_COLON: Bytes := [0x72, 0x3A]   // "r:"
  const J_ONLY: Bytes := [0x6A]          // "j"
  const ID_COLON: Bytes := [0x69, 0x64, 0x3A]   // "id:"

  function MsgKey(v: nat): (k: Bytes)
    ensures |k| == 10
  {
    J_COLON + BigEndian(v, 8)
  }

  function ResKey(jobKey: Bytes, until: nat): Bytes { R_COLON + BigEndian(until, 8) + jobKey }

  /** `resKeyToProperties`; a key of another length yields zero and no job key. */
  function ResKeyToProperties(key: Bytes): (nat, Bytes) {
    if |key| != 20 then (0, []) else (Val(key[2..10], 256), key[10..])
  }

  function JobKey(id: Bytes): Bytes { J_ONLY + id }
  function IdKey(resKey: Bytes): Bytes { ID_COLON + resKey }

  function SeqOf(msgKey: Bytes): nat { if |msgKey| < 2 then 0 else Val(msgKey[2..], 256) }

  /** Message keys compare like their sequence numbers and give them back. */
  lemma MsgKeyOrder(v: nat, w: nat)
    requires v < TWO64 && w < TWO64
    ensures SeqOf(MsgKey(v)) == v
    ensures Less(MsgKey(v), MsgKey(w)) <==> v < w
    ensures MsgKey(v) == MsgKey(w) <==> v == w
  {
    Uint64Bytes(v, w);
    assert MsgKey(v)[2..] == BigEndian(v, 8) && MsgKey(w)[2..] == BigEndian(w, 8);
    LessPrefix(J_COLON, BigEndian(v, 8), BigEndian(w, 8));
  }

  /** `resKeyToProperties` inverts `resKey`. */
  lemma ResKeyRoundTrip(v: nat, until: nat)
    requires v < TWO64 && until < TWO64
    ensures |ResKey(MsgKey(v), until)| == 20
    ensures ResKeyToProperties(ResKey(MsgKey(v), until)) == (until, MsgKey(v))
  {
    Uint64Bytes(until, until);
    var k := ResKey(MsgKey(v), until);
    assert k[2..10] == BigEndian(until, 8) && k[10..] == MsgKey(v);
  }

  /** Reservation keys compare by expiry time first, then by sequence number. */
  lemma ResKeyOrder(v: nat, until: nat, w: nat, until': nat)
    requires v < TWO64 && until < TWO64 && w < TWO64 && until' < TWO64
    ensures Less(ResKey(MsgKey(v), until), ResKey(MsgKey(w), until')) <==>
            until < until' || (until == until' && v < w)
  {
    Uint64Bytes(until, until');
    MsgKeyOrder(v, w);
    LessConcat(R_COLON + BigEndian(until, 8), MsgKey(v), R_COLON + BigEndian(until', 8), MsgKey(w));
    LessPrefix(R_COLON, BigEndian(until, 8), BigEndian(until', 8));
    if R_COLON + BigEndian(until, 8) == R_COLON + BigEndian(until', 8) {
      assert BigEndian(until, 8) == (R_COLON + BigEndian(until, 8))[2..];
      assert BigEndian(until', 8) == (R_COLON + BigEndian(until', 8))[2..];
    }
  }

  // ----------------------------------------------------------------------- key scheme

  /** Entry n is stored under the sequence number n + 1. */
  function EntryKey(n: nat): Bytes { MsgKey(n + 1) }

  function KeyBytes(g: Tag): Bytes {
    match g
    case Res(n, until) => ResKey(EntryKey(n), until)
    case Id(n, until) => IdKey(ResKey(EntryKey(n), until))
    case Of(id) => JobKey(id)
  }

  function Pred(n: nat): nat { if n == 0 then 0 else n - 1 }

  function TagOf(k: Bytes): Tag {
    if |k| == 20 && k[0] == 0x72 then Res(Pred(SeqOf(k[10..])), Val(k[2..10], 256))
    else if |k| == 23 && k[0] == 0x69 then Id(Pred(SeqOf(k[13..])), Val(k[5..13], 256))
    else if |k| > 0 && k[0] == 0x6A then Of(k[1..])
    else Res(TWO64, 0)
  }

  const BYTE_KEYS: Keys := Keys(EntryKey, k => SeqOf(k) - 1, KeyBytes, TagOf)

  /** A tag can be read off its bytes. */
  lemma TagRoundTrip(g: Tag)
    requires Small(g)
    ensures TagOf(KeyBytes(g)) == g
  {
    hide Val, Less;
    match g
    case Of(id) => assert JobKey(id)[1..] == id;
    case Res(n, until) =>
      ResKeyRoundTrip(n + 1, until);
      MsgKeyOrder(n + 1, n + 1);
    case Id(n, until) =>
      ResKeyRoundTrip(n + 1, until);
      MsgKeyOrder(n + 1, n + 1);
      var rk := ResKey(EntryKey(n), until);
      assert IdKey(rk)[13..] == rk[10..] && IdKey(rk)[5..13] == rk[2..10];
  }

  lemma ByteKeysReadable()
    ensures Readable(BYTE_KEYS)
  {
    forall n: nat | n < TWO64 - 1 ensures BYTE_KEYS.entryOf(BYTE_KEYS.entry(n)) == n { MsgKeyOrder(n + 1, n + 1); }
    forall g: Tag | Small(g) ensures BYTE_KEYS.tag(BYTE_KEYS.key(g)) == g { TagRoundTrip(g); }
  }

  // -------------------------------------------------------------------------- cursors

  /** Is x at or after the cursor's target, strictly after if `past`? */
  predicate Beyond(x: Bytes, target: Bytes, past: bool) {
    if past then Less(target, x) else !Less(x, target)
  }

  ghost predicate IsLeast(b: Bucket, target: Bytes, past: bool, k: Bytes) {
    k in b && Beyond(k, target, past) && forall x :: x in b && Beyond(x, target, past) ==> !Less(x, k)
  }

  /** A Bolt cursor over a byte-ordered bucket: `Seek(target)`, or `Next` from `target`. */
  method Seek(b: Bucket, target: Bytes, past: bool) returns (found: Option<Bytes>)
    ensures found.None? ==> forall x :: x in b ==> !Beyond(x, target, past)
    ensures found.Some? ==> IsLeast(b, target, past, found.value)
  {
    found := None;
    var rest := b.Keys;
    while rest != {}
      invariant rest <= b.Keys
      invariant found.None? ==> forall x :: x in b && x !in rest ==> !Beyond(x, target, past)
      invariant found.Some? ==> found.value in b && Beyond(found.value, target, past)
      invariant found.Some? ==> forall x :: x in b && x !in rest && Beyond(x, target, past) ==> !Less(x, found.value)
      decreases |rest|
    {
      var x :| x in rest;
      rest := rest - {x};
      if Beyond(x, target, past) && (found.None? || Less(x, found.value)) {
        if found.Some? {
          forall y | y in b && y !in rest && Beyond(y, target, past) ensures !Less(y, x) {
            if Less(y, x) { LessTransitive(y, x, found.value); LessIrreflexive(y); }
          }
        }
        LessIrreflexive(x);
        found := Some(x);
      }
    }
  }

  /** The least key of a queue bucket is the oldest queued entry, and every key is found from "j:". */
  lemma LeastIsFront(q: Bucket, l: Lane, k: Bytes)
    requires LaneInv(l) && QueueOk(BYTE_KEYS, q, l) && IsLeast(q, J_COLON, false, k)
    ensures IsFront(l, SeqOf(k) - 1) && k == EntryKey(SeqOf(k) - 1) && q[k] == JobValue(l.entries[SeqOf(k) - 1].job)
  {
    var n := SeqOf(k) - 1;
    assert IsQueued(l, BYTE_KEYS.entryOf(k)) && k == BYTE_KEYS.entry(n);
    forall m | IsQueued(l, m) ensures n <= m {
      assert BYTE_KEYS.entry(m) in q;
      EntryBeyond(m);
      MsgKeyOrder(m + 1, n + 1);
    }
  }

  lemma EntryBeyond(n: nat)
    ensures Beyond(EntryKey(n), J_COLON, false)
  {
    LessPrefix(J_COLON, BigEndian(n + 1, 8), []);
    assert J_COLON + [] == J_COLON;
  }

  lemma EmptyMeansNoneQueued(q: Bucket, l: Lane)
    requires QueueOk(BYTE_KEYS, q, l)
    requires forall x :: x in q ==> !Beyond(x, J_COLON, false)
    ensures forall n :: !IsQueued(l, n)
  {
    forall n | IsQueued(l, n) ensures false {
      assert BYTE_KEYS.entry(n) in q;
      EntryBeyond(n);
    }
  }

  // ------------------------------------------------------------------------- recovery

  /** From "r:" on a cursor sees the reservations and nothing else. */
  lemma BeyondMeansReservation(g: Tag)
    ensures Beyond(KeyBytes(g), R_COLON, false) <==> g.Res?
  {
    match g
    case Res(n, until) =>
      LessPrefix(R_COLON, BigEndian(until, 8) + EntryKey(n), []);
      assert R_COLON + [] == R_COLON;
      assert KeyBytes(g) == R_COLON + (BigEndian(until, 8) + EntryKey(n));
    case _ =>
  }

  /** The reservation under the cursor, as the tick reads it. */
  lemma AtReservation(t: Bucket, l: Lane, k: Bytes)
    requires LaneInv(l) && TimeoutOk(BYTE_KEYS, t, l) && k in t && Beyond(k, R_COLON, false)
    ensures var (until, msg) := ResKeyToProperties(k);
            var n := SeqOf(msg) - 1;
            && 0 <= n && Due(l, Res(n, until)) && until < TWO64
            && k == KeyBytes(Res(n, until)) && msg == EntryKey(n) && t[k] == JobValue(l.entries[n].job)
  {
    var g := BYTE_KEYS.tag(k);
    assert Due(l, g) && k == BYTE_KEYS.key(g);
    BeyondMeansReservation(g);
    DueIsSmall(l, g);
    ResKeyRoundTrip(g.n + 1, g.until);
    MsgKeyOrder(g.n + 1, g.n + 1);
    assert t[BYTE_KEYS.key(g)] == DueValue(BYTE_KEYS, l, g);
  }

  /** The early break: once the least reservation is unexpired, so is every other. */
  lemma BreakIsSafe(t: Bucket, l: Lane, k: Bytes, n: nat, until: nat)
    requires LaneInv(l) && TimeoutOk(BYTE_KEYS, t, l) && IsLeast(t, R_COLON, false, k)
    requires Due(l, Res(n, until))
    ensures ResKeyToProperties(k).0 <= until
  {
    hide Less, BigEndian, Val;
    AtReservation(t, l, k);
    var m := SeqOf(ResKeyToProperties(k).1) - 1;
    assert BYTE_KEYS.key(Res(n, until)) in t;
    BeyondMeansReservation(Res(n, until));
    ResKeyOrder(n + 1, until, m + 1, ResKeyToProperties(k).0);
  }

  lemma NothingReserved(t: Bucket, l: Lane, n: nat, until: nat)
    requires TimeoutOk(BYTE_KEYS, t, l) && forall x :: x in t ==> !Beyond(x, R_COLON, false)
    ensures !Due(l, Res(n, until))
  {
    BeyondMeansReservation(Res(n, until));
    assert BYTE_KEYS.key(Res(n, until)) == KeyBytes(Res(n, until));
  }

  /** Some of the expired entries have been restored so far. */
  predicate Between(l: Lane, cur: Lane, now: nat) {
    && |cur.entries| == |l.entries| && cur.tickets == l.tickets
    && forall n :: 0 <= n < |l.entries| ==>
         cur.entries[n] == l.entries[n] || cur.entries[n] == Expire(l.entries[n], now)
  }

  /** With only unexpired reservations left, all expired entries have been restored. */
  lemma BetweenEnds(l: Lane, cur: Lane, now: nat)
    requires Between(l, cur, now)
    requires forall n: nat, until: nat :: Due(cur, Res(n, until)) ==> until > now
    ensures cur == TickLane(l, now)
  {
    forall n: nat | n < |l.entries| ensures cur.entries[n] == Expire(l.entries[n], now) {
      if cur.entries[n] == l.entries[n] && l.entries[n].place.Reserved? {
        assert Due(cur, Res(n, l.entries[n].place.until));
      }
    }
  }

  /** The cursor after deleting the current reservation: `Next` finds the new least one. */
  lemma NextIsLeast(t: Bucket, t': Bucket, k: Bytes, next: Option<Bytes>)
    requires IsLeast(t, R_COLON, false, k)
    requires forall x :: x in t' ==> x in t && x != k
    requires next.None? ==> forall x :: x in t' ==> !Beyond(x, k, true)
    requires next.Some? ==> IsLeast(t', k, true, next.value)
    ensures next.None? ==> forall x :: x in t' ==> !Beyond(x, R_COLON, false)
    ensures next.Some? ==> IsLeast(t', R_COLON, false, next.value)
  {
    forall x | x in t' && Beyond(x, R_COLON, false) ensures Beyond(x, k, true) { LessTotal(x, k); }
    if next.Some? && Less(next.value, R_COLON) {
      LessTransitive(k, next.value, R_COLON);
    }
  }

  /** The state of the walk: the buckets implement a ledger in which some expired entries
      are back, and the cursor is on the least reservation left. */
  ghost predicate Walking(sequence: nat, q: Bucket, t: Bucket, l: Lane, cur: Lane, now: nat, cursor: Option<Bytes>) {
    && LaneOk(BYTE_KEYS, sequence, q, t, cur) && Between(l, cur, now)
    && (cursor.None? ==> forall x :: x in t ==> !Beyond(x, R_COLON, false))
    && (cursor.Some? ==> IsLeast(t, R_COLON, false, cursor.value))
  }

  /** The walk may stop at the end, or at an unexpired reservation. */
  lemma WalkEnds(sequence: nat, q: Bucket, t: Bucket, l: Lane, cur: Lane, now: nat, cursor: Option<Bytes>)
    requires Walking(sequence, q, t, l, cur, now, cursor)
    requires cursor.Some? ==> ResKeyToProperties(cursor.value).0 > now
    ensures LaneOk(BYTE_KEYS, sequence, q, t, TickLane(l, now))
  {
    forall n: nat, until: nat | Due(cur, Res(n, until)) ensures until > now {
      if cursor.None? {
        NothingReserved(t, cur, n, until);
      } else {
        BreakIsSafe(t, cur, cursor.value, n, until);
      }
    }
    BetweenEnds(l, cur, now);
  }

  lemma Walks(sequence: nat, q: Bucket, t: Bucket, l: Lane, cur: Lane, now: nat, cursor: Option<Bytes>)
    requires LaneOk(BYTE_KEYS, sequence, q, t, cur) && Between(l, cur, now)
    requires cursor.None? ==> forall x :: x in t ==> !Beyond(x, R_COLON, false)
    requires cursor.Some? ==> IsLeast(t, R_COLON, false, cursor.value)
    ensures Walking(sequence, q, t, l, cur, now, cursor)
  {
  }

  lemma WalkIsAtKey(sequence: nat, q: Bucket, t: Bucket, l: Lane, cur: Lane, now: nat, k: Bytes)
    requires Walking(sequence, q, t, l, cur, now, Some(k))
    ensures k in t && IsLeast(t, R_COLON, false, k)
  {
  }

  /** One step of the walk restores the entry under the cursor. */
  lemma WalkRestores(sequence: nat, q: Bucket, t: Bucket, l: Lane, cur: Lane, now: nat, k: Bytes) returns (cur': Lane)
    requires Walking(sequence, q, t, l, cur, now, Some(k)) && ResKeyToProperties(k).0 <= now && k in t
    ensures LaneOk(BYTE_KEYS, sequence, q[ResKeyToProperties(k).1 := t[k]], t - {k, IdKey(k)}, cur')
    ensures Between(l, cur', now)
  {
    AtReservation(t, cur, k);
    var (reserved, id) := ResKeyToProperties(k);
    var n := SeqOf(id) - 1;
    RestoreByteLane(sequence, q, t, cur, n, reserved);
    cur' := RestoreLane(cur, n);
  }

  lemma BetweenBegins(l: Lane, now: nat)
    ensures Between(l, l, now)
  {
  }

  /** The tick on one priority: walk the reservations in key order, put the expired ones
      back under their own key, stop at the first that is not. */
  method Recover(sequence: nat, q0: Bucket, t0: Bucket, now: nat, ghost l: Lane) returns (q: Bucket, t: Bucket)
    requires LaneOk(BYTE_KEYS, sequence, q0, t0, l)
    ensures LaneOk(BYTE_KEYS, sequence, q, t, TickLane(l, now))
  {
    hide *;
    q, t := q0, t0;
    ghost var cur := l;
    var cursor := Seek(t, R_COLON, false);
    BetweenBegins(l, now);
    Walks(sequence, q, t, l, cur, now, cursor);
    while cursor.Some?
      invariant Walking(sequence, q, t, l, cur, now, cursor)
      decreases |t.Keys|
    {
      var k := cursor.value;
      WalkIsAtKey(sequence, q, t, l, cur, now, k);
      var (reserved, id) := ResKeyToProperties(k);
      if reserved > now {
        break;
      }
      var q1, t1 := q[id := t[k]], t - {k, IdKey(k)};
      cursor := Seek(t1, k, true);
      NextIsLeast(t, t1, k, cursor);
      cur := WalkRestores(sequence, q, t, l, cur, now, k);
      Walks(sequence, q1, t1, l, cur, now, cursor);
      assert t1.Keys == t.Keys - {k, IdKey(k)};
      assert k in t.Keys && k !in t1.Keys;
      q, t := q1, t1;
    }
    WalkEnds(sequence, q, t, l, cur, now, cursor);
  }

  lemma RestoreByteLane(sequence: nat, q: Bucket, t: Bucket, l: Lane, n: nat, until: nat)
    requires LaneOk(BYTE_KEYS, sequence, q, t, l) && Due(l, Res(n, until))
    ensures LaneOk(BYTE_KEYS, sequence, q[EntryKey(n) := JobValue(l.entries[n].job)],
                   t - {KeyBytes(Res(n, until)), IdKey(KeyBytes(Res(n, until)))}, RestoreLane(l, n))
  {
    ByteKeysReadable();
    RestoreOk(BYTE_KEYS, sequence, q, t, l, n, until);
  }

  // ---------------------------------------------------------------------- the database

  /** `BoltDbMQ`: per priority a sequence counter, a queue bucket and a timeout bucket.
      A method is one read-write transaction. */
  class BoltDbMQ {
    var sequences: seq<nat>
    var queues: seq<Bucket>
    var timeouts: seq<Bucket>
    ghost var lanes: seq<Lane>   // the ledger the buckets implement

    ghost predicate Valid()
      reads this
    {
      && |sequences| == 3 && |queues| == 3 && |timeouts| == 3 && |lanes| == 3
      && forall i :: 0 <= i < 3 ==> LaneOk(BYTE_KEYS, sequences[i], queues[i], timeouts[i], lanes[i])
    }

    constructor ()
      ensures Valid() && lanes == [EMPTY_LANE, EMPTY_LANE, EMPTY_LANE]
    {
      sequences := [0, 0, 0];
      queues := [map[], map[], map[]];
      timeouts := [map[], map[], map[]];
      lanes := [EMPTY_LANE, EMPTY_LANE, EMPTY_LANE];
    }

    /** `Push` of a job without delay. */
    method Push(priority: nat, job: Job)
      requires Valid() && priority < 3
      requires |lanes[priority].entries| + 1 < TWO64 - 1   // the bucket's sequence does not wrap
      modifies this
      ensures Valid()
      ensures lanes == old(lanes)[priority := PushLane(old(lanes)[priority], job)]
      ensures Enabled(old(lanes), Op.Push(priority, job)) && lanes == Apply(old(lanes), Op.Push(priority, job))
    {
      hide LaneOk;
      var id := sequences[priority] + 1;
      PushByteLane(sequences[priority], queues[priority], timeouts[priority], lanes[priority], job);
      lanes := lanes[priority := PushLane(lanes[priority], job)];
      sequences := sequences[priority := id];
      queues := queues[priority := queues[priority][MsgKey(id) := JobValue(job)]];
    }

    /** `Reserve`: the oldest queued job of the highest priority that has one. */
    method Reserve(until: nat) returns (job: Option<Job>, ghost p: nat, ghost n: nat)
      requires Valid() && until < TWO64
      modifies this
      ensures Valid()
      ensures job.None? ==> lanes == old(lanes) && forall i, m :: 0 <= i < 3 ==> !IsQueued(lanes[i], m)
      ensures job.Some? ==>
                && p < 3 && IsFront(old(lanes)[p], n) && n < |old(lanes)[p].entries|
                && (forall i, m :: p < i < 3 ==> !IsQueued(old(lanes)[i], m))
                && job.value == old(lanes)[p].entries[n].job
                && lanes == old(lanes)[p := ReserveLane(old(lanes)[p], n, until)]
                && Enabled(old(lanes), Op.Reserve(p, n, until)) && lanes == Apply(old(lanes), Op.Reserve(p, n, until))
    {
      hide LaneOk;
      job, p, n := None, 0, 0;
      var i := 3;
      while i > 0
        invariant 0 <= i <= 3 && Valid() && lanes == old(lanes)
        invariant forall j, m :: i <= j < 3 ==> !IsQueued(lanes[j], m)
      {
        i := i - 1;
        var found := Seek(queues[i], J_COLON, false);
        if found.Some? {
          var key := found.value;
          FrontOfLane(sequences[i], queues[i], timeouts[i], lanes[i], key);
          var value := queues[i][key];
          var reservationKey := ResKey(key, until);
          p, n := i, SeqOf(key) - 1;
          ReserveByteLane(sequences[i], queues[i], timeouts[i], lanes[i], n, until);
          job := Some(value.job);
          lanes := lanes[i := ReserveLane(lanes[i], n, until)];
          queues := queues[i := queues[i] - {key}];
          timeouts := timeouts[i := timeouts[i][reservationKey := value][JobKey(value.job.id) := Raw(reservationKey)]
                                               [IdKey(reservationKey) := Raw(value.job.id)]];
          return;
        }
        NothingInLane(sequences[i], queues[i], timeouts[i], lanes[i]);
      }
    }

    /** `Delete` finds the job's latest reservation by its id; without one it fails. */
    method Delete(priority: nat, id: Bytes) returns (ok: bool)
      requires Valid() && priority < 3
      modifies this
      ensures Valid()
      ensures ok <==> id in old(lanes)[priority].tickets
      ensures !ok ==> lanes == old(lanes)
      ensures ok ==> old(lanes)[priority].tickets[id].n < |old(lanes)[priority].entries|
                     && lanes == old(lanes)[priority := DeleteLane(old(lanes)[priority], id)]
      ensures ok ==> Enabled(old(lanes), Op.Delete(priority, id)) && lanes == Apply(old(lanes), Op.Delete(priority, id))
    {
      hide LaneOk;
      var k := JobKey(id);
      TicketOfLane(sequences[priority], queues[priority], timeouts[priority], lanes[priority], id);
      if k !in timeouts[priority] {
        return false;
      }
      var reservationKey := timeouts[priority][k].bytes;
      lanes := lanes[priority := DeleteLane(lanes[priority], id)];
      timeouts := timeouts[priority := timeouts[priority] - {k, IdKey(reservationKey), reservationKey}];
      return true;
    }

    /** The reservation tick at time `now`. */
    method Tick(now: nat)
      requires Valid()
      modifies this
      ensures Valid()
      ensures lanes == TickAll(old(lanes), now)
      ensures Enabled(old(lanes), Op.Tick(now)) && lanes == Apply(old(lanes), Op.Tick(now))
    {
      hide LaneOk;
      for i := 0 to 3
        invariant Valid()
        invariant forall j :: 0 <= j < 3 ==> lanes[j] == if j < i then TickLane(old(lanes)[j], now) else old(lanes)[j]
      {
        var q, t := Recover(sequences[i], queues[i], timeouts[i], now, lanes[i]);
        lanes := lanes[i := TickLane(lanes[i], now)];
        queues := queues[i := q];
        timeouts := timeouts[i := t];
      }
    }
  }

  const EMPTY_LANE: Lane := Lane([], map[])

  // the transactions above, on the buckets of one priority

  lemma PushByteLane(sequence: nat, q: Bucket, t: Bucket, l: Lane, job: Job)
    requires LaneOk(BYTE_KEYS, sequence, q, t, l) && |l.entries| + 1 < TWO64 - 1
    ensures LaneOk(BYTE_KEYS, sequence + 1, q[MsgKey(sequence + 1) := JobValue(job)], t, PushLane(l, job))
  {
    ByteKeysReadable();
    PushOk(BYTE_KEYS, sequence, q, t, l, job);
  }

  lemma FrontOfLane(sequence: nat, q: Bucket, t: Bucket, l: Lane, k: Bytes)
    requires LaneOk(BYTE_KEYS, sequence, q, t, l) && IsLeast(q, J_COLON, false, k)
    ensures k in q && SeqOf(k) >= 1 && IsFront(l, SeqOf(k) - 1) && SeqOf(k) - 1 < |l.entries|
    ensures k == EntryKey(SeqOf(k) - 1) && q[k] == JobValue(l.entries[SeqOf(k) - 1].job)
  {
    LeastIsFront(q, l, k);
  }

  lemma NothingInLane(sequence: nat, q: Bucket, t: Bucket, l: Lane)
    requires LaneOk(BYTE_KEYS, sequence, q, t, l) && forall x :: x in q ==> !Beyond(x, J_COLON, false)
    ensures forall n :: !IsQueued(l, n)
  {
    EmptyMeansNoneQueued(q, l);
  }

  lemma ReserveByteLane(sequence: nat, q: Bucket, t: Bucket, l: Lane, n: nat, until: nat)
    requires LaneOk(BYTE_KEYS, sequence, q, t, l) && IsQueued(l, n) && until < TWO64
    ensures var rk := ResKey(EntryKey(n), until);
            var job := l.entries[n].job;
            LaneOk(BYTE_KEYS, sequence, q - {EntryKey(n)},
                   t[rk := JobValue(job)][JobKey(job.id) := Raw(rk)][IdKey(rk) := Raw(job.id)],
                   ReserveLane(l, n, until))
  {
    ByteKeysReadable();
    ReserveOk(BYTE_KEYS, sequence, q, t, l, n, until);
  }

  lemma TicketOfLane(sequence: nat, q: Bucket, t: Bucket, l: Lane, id: Bytes)
    requires LaneOk(BYTE_KEYS, sequence, q, t, l)
    ensures JobKey(id) in t <==> id in l.tickets
    ensures id in l.tickets ==> l.tickets[id].n < |l.entries|
    ensures id in l.tickets ==>
              var rk := ResKey(EntryKey(l.tickets[id].n), l.tickets[id].until);
              && t[JobKey(id)] == Raw(rk)
              && LaneOk(BYTE_KEYS, sequence, q, t - {JobKey(id), IdKey(rk), rk}, DeleteLane(l, id))
  {
    ByteKeysReadable();
    assert BYTE_KEYS.key(Of(id)) == JobKey(id);
    TagRoundTrip(Of(id));
    if id in l.tickets {
      assert Due(l, Of(id));
      DeleteOk(BYTE_KEYS, sequence, q, t, l, id);
    }
  }
}
