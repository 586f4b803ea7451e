/** The ledger that a reserve-and-delete queue implements, and the buckets that
    implement it, for any scheme of keys that can be read back. */
module BoltLedger {
  import opened Words
  import opened ByteOrder

  /** A call as the queue sees it; `body` is the rest of its JSON form. */
  datatype Job = Job(id: Bytes, body: Bytes)

  // --------------------------------------------------------------------------- ledger

  /** Where a pushed job is. */
  datatype Place = Queued | Reserved(until: nat) | Deleted

  datatype Entry = Entry(job: Job, place: Place)

  /** What `Delete` finds under a job id: the latest reservation made for it. */
  datatype Ticket = Ticket(n: nat, until: nat)

  /** One priority: entry n is the n-th push, counted from 0, and stays there for good. */
  datatype Lane = Lane(entries: seq<Entry>, tickets: map<Bytes, Ticket>)

  function PushLane(l: Lane, job: Job): Lane { l.(entries := l.entries + [Entry(job, Queued)]) }

  predicate IsQueued(l: Lane, n: int) { 0 <= n < |l.entries| && l.entries[n].place.Queued? }

  /** n is the oldest queued entry. */
  ghost predicate IsFront(l: Lane, n: int) {
    IsQueued(l, n) && forall m :: IsQueued(l, m) ==> n <= m
  }

  function ReserveLane(l: Lane, n: nat, until: nat): Lane
    requires n < |l.entries|
  {
    Lane(l.entries[n := l.entries[n].(place := Reserved(until))],
         l.tickets[l.entries[n].job.id := Ticket(n, until)])
  }

  /** `Delete` of an id: the ticket goes; the entry goes with it if that very reservation is outstanding. */
  function DeleteLane(l: Lane, id: Bytes): Lane
    requires id in l.tickets && l.tickets[id].n < |l.entries|
  {
    var t := l.tickets[id];
    Lane(if l.entries[t.n].place == Reserved(t.until)
         then l.entries[t.n := l.entries[t.n].(place := Deleted)] else l.entries,
         l.tickets - {id})
  }

  function Expire(e: Entry, now: nat): Entry {
    if e.place.Reserved? && e.place.until <= now then e.(place := Queued) else e
  }

  /** The reservation tick: every expired entry is back in its place in the queue. */
  function TickLane(l: Lane, now: nat): Lane {
    l.(entries := seq(|l.entries|, n requires 0 <= n < |l.entries| => Expire(l.entries[n], now)))
  }

  function TickAll(lanes: seq<Lane>, now: nat): seq<Lane> {
    seq(|lanes|, i requires 0 <= i < |lanes| => TickLane(lanes[i], now))
  }

  predicate LaneInv(l: Lane) {
    && |l.entries| < TWO64 - 1
    && (forall n :: 0 <= n < |l.entries| && l.entries[n].place.Reserved? ==> l.entries[n].place.until < TWO64)
    && (forall id :: id in l.tickets ==>
          && l.tickets[id].n < |l.entries| && l.tickets[id].until < TWO64
          && l.entries[l.tickets[id].n].job.id == id)
  }

  // -------------------------------------------------------------------------- buckets

  /** What a bucket stores under a key: a job, or plain bytes. */
  datatype Value = JobValue(job: Job) | Raw(bytes: Bytes)

  type Bucket = map<Bytes, Value>

  /** The keys of a timeout bucket: a reservation, the same marked "id:", and a job id. */
  datatype Tag = Res(n: nat, until: nat) | Id(n: nat, until: nat) | Of(id: Bytes)

  /** A key scheme: the bytes of entry numbers and tags, and how to read them back. */
  datatype Keys = Keys(entry: nat -> Bytes, entryOf: Bytes -> int, key: Tag -> Bytes, tag: Bytes -> Tag)

  predicate Small(g: Tag) { g.Of? || (g.n < TWO64 - 1 && g.until < TWO64) }

  ghost predicate Readable(c: Keys) {
    && (forall n: nat :: n < TWO64 - 1 ==> c.entryOf(c.entry(n)) == n)
    && (forall g: Tag :: Small(g) ==> c.tag(c.key(g)) == g)
  }

  /** The queue bucket holds exactly the queued entries. */
  ghost predicate QueueOk(c: Keys, q: Bucket, l: Lane) {
    && (forall n: nat :: IsQueued(l, n) ==> c.entry(n) in q && q[c.entry(n)] == JobValue(l.entries[n].job))
    && (forall k :: k in q ==> IsQueued(l, c.entryOf(k)) && k == c.entry(c.entryOf(k)))
  }

  /** Should the timeout bucket have the tag? */
  predicate Due(l: Lane, g: Tag) {
    match g
    case Res(n, until) => n < |l.entries| && l.entries[n].place == Reserved(until)
    case Id(n, until) => n < |l.entries| && l.entries[n].place == Reserved(until)
    case Of(id) => id in l.tickets
  }

  function DueValue(c: Keys, l: Lane, g: Tag): Value
    requires Due(l, g)
  {
    match g
    case Res(n, _) => JobValue(l.entries[n].job)
    case Id(n, _) => Raw(l.entries[n].job.id)
    case Of(id) => Raw(c.key(Res(l.tickets[id].n, l.tickets[id].until)))
  }

  /** The timeout bucket holds, for each reserved entry, its job and its id, and for each ticket the key. */
  ghost predicate TimeoutOk(c: Keys, t: Bucket, l: Lane) {
    && (forall g: Tag :: Due(l, g) ==> c.key(g) in t && t[c.key(g)] == DueValue(c, l, g))
    && (forall k :: k in t ==> Due(l, c.tag(k)) && k == c.key(c.tag(k)))
  }

  /** The buckets of one priority implement its ledger. */
  ghost predicate LaneOk(c: Keys, sequence: nat, q: Bucket, t: Bucket, l: Lane) {
    && LaneInv(l)
    && sequence == |l.entries|
    && QueueOk(c, q, l)
    && TimeoutOk(c, t, l)
  }

  lemma DueIsSmall(l: Lane, g: Tag)
    requires LaneInv(l) && Due(l, g)
    ensures Small(g)
  {
  }

  // --------------------------------------------------------------------- transactions

  lemma PushOk(c: Keys, sequence: nat, q: Bucket, t: Bucket, l: Lane, job: Job)
    requires Readable(c) && LaneOk(c, sequence, q, t, l) && sequence + 1 < TWO64 - 1
    ensures LaneOk(c, sequence + 1, q[c.entry(sequence) := JobValue(job)], t, PushLane(l, job))
  {
    var l' := PushLane(l, job);
    forall g: Tag | Due(l', g) ensures c.key(g) in t && t[c.key(g)] == DueValue(c, l', g) {
      assert Due(l, g);
    }
    assert TimeoutOk(c, t, l');
    var q' := q[c.entry(sequence) := JobValue(job)];
    forall n: nat | IsQueued(l', n) ensures c.entry(n) in q' && q'[c.entry(n)] == JobValue(l'.entries[n].job) {
      assert c.entryOf(c.entry(n)) == n;
      if n < sequence { assert IsQueued(l, n); }
    }
    assert QueueOk(c, q', l');
  }

  /** Moving entry n between the buckets, whichever way, keeps the queue side right. */
  lemma QueueMove(c: Keys, q: Bucket, q': Bucket, l: Lane, l': Lane, n: nat)
    requires Readable(c) && LaneInv(l) && QueueOk(c, q, l) && n < |l.entries| && |l'.entries| == |l.entries|
    requires forall m :: 0 <= m < |l.entries| && m != n ==> l'.entries[m] == l.entries[m]
    requires forall k :: k != c.entry(n) ==> (k in q' <==> k in q) && (k in q' ==> q'[k] == q[k])
    requires c.entry(n) in q' <==> IsQueued(l', n)
    requires IsQueued(l', n) ==> q'[c.entry(n)] == JobValue(l'.entries[n].job)
    ensures QueueOk(c, q', l')
  {
    forall m: nat | IsQueued(l', m) ensures c.entry(m) in q' && q'[c.entry(m)] == JobValue(l'.entries[m].job) {
      assert c.entryOf(c.entry(m)) == m && c.entryOf(c.entry(n)) == n;
      if m != n { assert IsQueued(l, m); }
    }
    forall k | k in q' ensures IsQueued(l', c.entryOf(k)) && k == c.entry(c.entryOf(k)) {
      assert c.entryOf(c.entry(n)) == n;
    }
  }

  lemma ReserveOk(c: Keys, sequence: nat, q: Bucket, t: Bucket, l: Lane, n: nat, until: nat)
    requires Readable(c) && LaneOk(c, sequence, q, t, l) && IsQueued(l, n) && until < TWO64
    ensures var job := l.entries[n].job;
            var rk := c.key(Res(n, until));
            LaneOk(c, sequence, q - {c.entry(n)},
                   t[rk := JobValue(job)][c.key(Of(job.id)) := Raw(rk)][c.key(Id(n, until)) := Raw(job.id)],
                   ReserveLane(l, n, until))
  {
    QueueMove(c, q, q - {c.entry(n)}, l, ReserveLane(l, n, until), n);
    ReserveTimeout(c, t, l, n, until);
  }

  lemma ReserveTimeout(c: Keys, t: Bucket, l: Lane, n: nat, until: nat)
    requires Readable(c) && LaneInv(l) && TimeoutOk(c, t, l) && IsQueued(l, n) && until < TWO64
    ensures var job := l.entries[n].job;
            var rk := c.key(Res(n, until));
            TimeoutOk(c, t[rk := JobValue(job)][c.key(Of(job.id)) := Raw(rk)][c.key(Id(n, until)) := Raw(job.id)],
                      ReserveLane(l, n, until))
  {
    var job := l.entries[n].job;
    var rk := c.key(Res(n, until));
    var l' := ReserveLane(l, n, until);
    var t' := t[rk := JobValue(job)][c.key(Of(job.id)) := Raw(rk)][c.key(Id(n, until)) := Raw(job.id)];
    assert c.tag(rk) == Res(n, until) && c.tag(c.key(Of(job.id))) == Of(job.id);
    assert c.tag(c.key(Id(n, until))) == Id(n, until);
    forall g: Tag | Due(l', g) ensures c.key(g) in t' && t'[c.key(g)] == DueValue(c, l', g) {
      DueIsSmall(l', g);
      assert c.tag(c.key(g)) == g;
      if g != Res(n, until) && g != Id(n, until) && g != Of(job.id) { assert Due(l, g); }
    }
    forall k | k in t' ensures Due(l', c.tag(k)) && k == c.key(c.tag(k)) {
      if k in t { assert Due(l, c.tag(k)); }
    }
  }

  /** Restoring one reserved entry: the body of the tick's loop. */
  function RestoreLane(l: Lane, n: nat): Lane
    requires n < |l.entries|
  {
    l.(entries := l.entries[n := l.entries[n].(place := Queued)])
  }

  /** Entry n leaves its reservation: the timeout side. */
  lemma Unreserve(c: Keys, t: Bucket, l: Lane, l': Lane, n: nat, until: nat)
    requires Readable(c) && LaneInv(l) && TimeoutOk(c, t, l) && Due(l, Res(n, until)) && |l'.entries| == |l.entries|
    requires forall m :: 0 <= m < |l.entries| && m != n ==> l'.entries[m] == l.entries[m]
    requires !l'.entries[n].place.Reserved? && l'.tickets == l.tickets && l'.entries[n].job == l.entries[n].job
    ensures TimeoutOk(c, t - {c.key(Res(n, until)), c.key(Id(n, until))}, l')
  {
    var t' := t - {c.key(Res(n, until)), c.key(Id(n, until))};
    assert c.tag(c.key(Res(n, until))) == Res(n, until) && c.tag(c.key(Id(n, until))) == Id(n, until);
    forall g: Tag | Due(l', g) ensures c.key(g) in t' && t'[c.key(g)] == DueValue(c, l', g) {
      assert Due(l, g);
      DueIsSmall(l, g);
      assert c.tag(c.key(g)) == g;
    }
    forall k | k in t' ensures Due(l', c.tag(k)) && k == c.key(c.tag(k)) {
      assert Due(l, c.tag(k));
    }
  }

  lemma RestoreOk(c: Keys, sequence: nat, q: Bucket, t: Bucket, l: Lane, n: nat, until: nat)
    requires Readable(c) && LaneOk(c, sequence, q, t, l) && Due(l, Res(n, until))
    ensures LaneOk(c, sequence, q[c.entry(n) := JobValue(l.entries[n].job)],
                   t - {c.key(Res(n, until)), c.key(Id(n, until))}, RestoreLane(l, n))
  {
    QueueMove(c, q, q[c.entry(n) := JobValue(l.entries[n].job)], l, RestoreLane(l, n), n);
    Unreserve(c, t, l, RestoreLane(l, n), n, until);
  }

  lemma DeleteOk(c: Keys, sequence: nat, q: Bucket, t: Bucket, l: Lane, id: Bytes)
    requires Readable(c) && LaneOk(c, sequence, q, t, l) && id in l.tickets
    ensures var n, until := l.tickets[id].n, l.tickets[id].until;
            LaneOk(c, sequence, q, t - {c.key(Of(id)), c.key(Id(n, until)), c.key(Res(n, until))}, DeleteLane(l, id))
  {
    var n, until := l.tickets[id].n, l.tickets[id].until;
    var l' := DeleteLane(l, id);
    var bare := Lane(l'.entries, l.tickets);
    var t1 := t - {c.key(Res(n, until)), c.key(Id(n, until))};
    if Due(l, Res(n, until)) {
      QueueMove(c, q, q, l, l', n);
      Unreserve(c, t, l, bare, n, until);
    } else {
      // a stale ticket points to nothing
      assert c.tag(c.key(Res(n, until))) == Res(n, until) && c.tag(c.key(Id(n, until))) == Id(n, until);
      assert t1 == t;
    }
    DropTicket(c, t1, bare, id);
    assert t1 - {c.key(Of(id))} == t - {c.key(Of(id)), c.key(Id(n, until)), c.key(Res(n, until))};
  }

  lemma DropTicket(c: Keys, t: Bucket, l: Lane, id: Bytes)
    requires Readable(c) && LaneInv(l) && TimeoutOk(c, t, l)
    ensures TimeoutOk(c, t - {c.key(Of(id))}, Lane(l.entries, l.tickets - {id}))
  {
    var l' := Lane(l.entries, l.tickets - {id});
    var t' := t - {c.key(Of(id))};
    assert c.tag(c.key(Of(id))) == Of(id);
    forall g: Tag | Due(l', g) ensures c.key(g) in t' && t'[c.key(g)] == DueValue(c, l', g) {
      assert Due(l, g);
      DueIsSmall(l, g);
      assert c.tag(c.key(g)) == g;
    }
    forall k | k in t' ensures Due(l', c.tag(k)) && k == c.key(c.tag(k)) {
      assert Due(l, c.tag(k));
    }
  }

  // ----------------------------------------------------------------------------- runs

  /** What the four transactions do to the ledgers of the three priorities. */
  datatype Op =
    | Push(p: nat, job: Job)
    | Reserve(p: nat, n: nat, until: nat)
    | Delete(p: nat, id: Bytes)
    | Tick(now: nat)

  ghost predicate Enabled(lanes: seq<Lane>, op: Op) {
    && |lanes| == 3
    && match op
       case Push(p, _) => p < 3
       case Reserve(p, n, _) =>
         && p < 3 && IsFront(lanes[p], n) && n < |lanes[p].entries|
         && forall i, m :: p < i < 3 ==> !IsQueued(lanes[i], m)
       case Delete(p, id) => p < 3 && id in lanes[p].tickets && lanes[p].tickets[id].n < |lanes[p].entries|
       case Tick(_) => true
  }

  ghost function Apply(lanes: seq<Lane>, op: Op): seq<Lane>
    requires Enabled(lanes, op)
  {
    match op
    case Push(p, job) => lanes[p := PushLane(lanes[p], job)]
    case Reserve(p, n, until) => lanes[p := ReserveLane(lanes[p], n, until)]
    case Delete(p, id) => lanes[p := DeleteLane(lanes[p], id)]
    case Tick(now) => TickAll(lanes, now)
  }

  ghost predicate IsRun(run: seq<seq<Lane>>, ops: seq<Op>) {
    && |run| == |ops| + 1
    && run[0] == seq(3, _ => Lane([], map[]))
    && forall i :: 0 <= i < |ops| ==> Enabled(run[i], ops[i]) && run[i + 1] == Apply(run[i], ops[i])
  }

  predicate Has(lanes: seq<Lane>, p: nat, n: nat) { |lanes| == 3 && p < 3 && n < |lanes[p].entries| }

  /** A ticket names an entry of its own job id. */
  predicate TicketsOk(l: Lane) {
    forall id :: id in l.tickets ==> l.tickets[id].n < |l.entries| && l.entries[l.tickets[id].n].job.id == id
  }

  lemma {:induction false} RunTickets(run: seq<seq<Lane>>, ops: seq<Op>, i: nat)
    requires IsRun(run, ops) && i < |run|
    ensures |run[i]| == 3 && forall p :: 0 <= p < 3 ==> TicketsOk(run[i][p])
  {
    if i > 0 {
      RunTickets(run, ops, i - 1);
      assert Enabled(run[i - 1], ops[i - 1]) && run[i] == Apply(run[i - 1], ops[i - 1]);
    }
  }

  /** The only ways an entry can move: reserved from the queue, restored after its time, or
      deleted under its own id while that very reservation is outstanding. */
  lemma EntryMoves(run: seq<seq<Lane>>, ops: seq<Op>, i: nat, p: nat, n: nat)
    requires IsRun(run, ops) && i < |ops| && Has(run[i], p, n)
    ensures Has(run[i + 1], p, n) && run[i + 1][p].entries[n].job == run[i][p].entries[n].job
    ensures var e, e' := run[i][p].entries[n], run[i + 1][p].entries[n];
            || e'.place == e.place
            || (e.place.Queued? && ops[i].Reserve? && ops[i].p == p && ops[i].n == n
                && e'.place == Reserved(ops[i].until))
            || (e.place.Reserved? && ops[i].Tick? && e.place.until <= ops[i].now && e'.place == Queued)
            || (e.place.Reserved? && ops[i].Delete? && ops[i].p == p && ops[i].id == e.job.id && e'.place == Deleted)
  {
    RunTickets(run, ops, i);
    assert Enabled(run[i], ops[i]) && run[i + 1] == Apply(run[i], ops[i]);
  }

  /** Nothing is lost or duplicated: an entry keeps its number and its job for good, so at
      every moment it is in exactly one place; once deleted it stays deleted. */
  lemma {:induction false} EntriesPersist(run: seq<seq<Lane>>, ops: seq<Op>, i: nat, j: nat, p: nat, n: nat)
    requires IsRun(run, ops) && i <= j < |run| && Has(run[i], p, n)
    ensures Has(run[j], p, n) && run[j][p].entries[n].job == run[i][p].entries[n].job
    ensures run[i][p].entries[n].place.Deleted? ==> run[j][p].entries[n].place.Deleted?
  {
    if i < j {
      EntriesPersist(run, ops, i, j - 1, p, n);
      EntryMoves(run, ops, j - 1, p, n);
    }
  }

  predicate TickedIn(ops: seq<Op>, from: nat, to: nat, until: nat) {
    exists k :: from <= k < to && k < |ops| && ops[k].Tick? && until <= ops[k].now
  }

  /** While its reservation has not been ticked away, a reserved entry is reserved or deleted. */
  lemma {:induction false} StaysReserved(run: seq<seq<Lane>>, ops: seq<Op>, i: nat, j: nat)
    requires IsRun(run, ops) && i < |ops| && ops[i].Reserve? && i < j < |run|
    requires !TickedIn(ops, i + 1, j, ops[i].until)
    ensures Has(run[j], ops[i].p, ops[i].n)
    ensures var place := run[j][ops[i].p].entries[ops[i].n].place;
            place == Reserved(ops[i].until) || place == Deleted
  {
    assert Enabled(run[i], ops[i]) && run[i + 1] == Apply(run[i], ops[i]);
    if i + 1 < j {
      assert !TickedIn(ops, i + 1, j - 1, ops[i].until);
      StaysReserved(run, ops, i, j - 1);
      EntryMoves(run, ops, j - 1, ops[i].p, ops[i].n);
    }
  }

  /** A job handed out once is not handed out again until its reservation has expired in a tick. */
  lemma NoDoubleDelivery(run: seq<seq<Lane>>, ops: seq<Op>, i: nat, j: nat)
    requires IsRun(run, ops) && i < j < |ops| && ops[i].Reserve? && ops[j].Reserve?
    requires ops[i].p == ops[j].p && ops[i].n == ops[j].n
    ensures TickedIn(ops, i + 1, j, ops[i].until)
  {
    assert Enabled(run[j], ops[j]);
    if !TickedIn(ops, i + 1, j, ops[i].until) {
      StaysReserved(run, ops, i, j);
    }
  }

  /** Total order: a job is handed out only when nothing of a higher priority and nothing pushed before
      it in its own priority is queued. */
  lemma DeliveredInOrder(run: seq<seq<Lane>>, ops: seq<Op>, i: nat, p: nat, n: nat)
    requires IsRun(run, ops) && i < |ops| && ops[i].Reserve? && Has(run[i], p, n)
    requires p > ops[i].p || (p == ops[i].p && n < ops[i].n)
    ensures !run[i][p].entries[n].place.Queued?
  {
    assert Enabled(run[i], ops[i]);
    if run[i][p].entries[n].place.Queued? { assert IsQueued(run[i][p], n); }
  }

  /** The contract's ordering rule: a job restored by a tick is again ahead of everything
      pushed after it; for A, B, C with A timed out and B deleted the queue is A, C. */
  lemma RestoredGoesAhead(l: Lane, n: nat, now: nat)
    requires n < |l.entries| && l.entries[n].place.Reserved? && l.entries[n].place.until <= now
    requires forall m :: 0 <= m < n ==>
      l.entries[m].place.Deleted? || (l.entries[m].place.Reserved? && l.entries[m].place.until > now)
    ensures IsFront(TickLane(l, now), n)
  {
    assert IsQueued(TickLane(l, now), n);
    forall m | IsQueued(TickLane(l, now), m) ensures n <= m {
      assert TickLane(l, now).entries[m] == Expire(l.entries[m], now);
    }
  }
}
