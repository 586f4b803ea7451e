/** Request and container state trackers and the per-queue counters they feed.
    `UpdateState` is three separate critical sections (advance the tracker, enter
    the new state, exit the old one), so any number of calls interleave. */
module Trackers {
  import opened Words
  import opened SeqSum
  import opened ByteOrder

  datatype Kind = Req | Con

  /** The state constants; 0 is `None` for both kinds. */
  const REQ_WAIT: nat := 1
  const REQ_EXEC: nat := 2
  const CON_WAIT: nat := 1
  const CON_START: nat := 2
  const CON_IDLE: nat := 3
  const CON_BUSY: nat := 4
  const CON_DONE: nat := 5

  function Max(kind: Kind): nat { if kind.Req? then 4 else 6 }

  /** May `UpdateState` move from `state` to `next`? */
  predicate Allowed(kind: Kind, state: nat, next: nat) {
    || state < next
    || (kind.Con? && state == CON_BUSY && next == CON_IDLE)
    || (kind.Con? && state == CON_DONE && next == CON_IDLE)
  }

  /** A counter of `slotQueueStats`. */
  datatype Counter = Counter(kind: Kind, state: nat)

  /** `isIdle` reads these counters. */
  predicate Watched(x: Counter) {
    if x.kind.Req? then x.state == REQ_WAIT || x.state == REQ_EXEC
    else x.state == CON_WAIT || x.state == CON_START || x.state == CON_IDLE || x.state == CON_BUSY
  }

  datatype Phase = ToEnter | ToExit | Finished

  /** An `UpdateState` call whose lock region moved the tracker from `prev` to `next`. */
  datatype Update = Update(next: nat, prev: nat, phase: Phase)

  /** `attached`: its updates carry this slot queue (a nil queue feeds no counter). */
  datatype Tracker = Tracker(kind: Kind, attached: bool, state: nat, updates: seq<Update>)

  datatype State = State(counters: map<Counter, int>, trackers: seq<Tracker>)

  datatype Step =
    | NewTracker(kind: Kind, attached: bool)
    | Advance(i: nat, next: nat)
    | Enter(i: nat, j: nat)
    | Exit(i: nat, j: nat)

  // --------------------------------------------------------------------------- steps

  /** The four enter and exit methods: `None` and out-of-range states are ignored, uint64 wraps. */
  function Bump(m: map<Counter, int>, x: Counter, delta: int): map<Counter, int> {
    if 0 < x.state < Max(x.kind) && x in m then m[x := (m[x] + delta) % TWO64] else m
  }

  predicate HasUpdate(s: State, i: nat, j: nat) {
    i < |s.trackers| && j < |s.trackers[i].updates|
  }

  predicate Enabled(s: State, step: Step) {
    match step
    case NewTracker(_, _) => true
    case Advance(i, next) => i < |s.trackers| && next < Max(s.trackers[i].kind)
    case Enter(i, j) => HasUpdate(s, i, j) && s.trackers[i].updates[j].phase.ToEnter?
    case Exit(i, j) => HasUpdate(s, i, j) && s.trackers[i].updates[j].phase.ToExit?
  }

  function AdvanceTracker(t: Tracker, next: nat): Tracker {
    if !Allowed(t.kind, t.state, next) then t
    else t.(state := next, updates := if t.attached then t.updates + [Update(next, t.state, ToEnter)] else t.updates)
  }

  function SetPhase(t: Tracker, j: nat, phase: Phase): Tracker
    requires j < |t.updates|
  {
    t.(updates := t.updates[j := t.updates[j].(phase := phase)])
  }

  function Apply(s: State, step: Step): State
    requires Enabled(s, step)
  {
    match step
    case NewTracker(kind, attached) => s.(trackers := s.trackers + [Tracker(kind, attached, 0, [])])
    case Advance(i, next) => s.(trackers := s.trackers[i := AdvanceTracker(s.trackers[i], next)])
    case Enter(i, j) =>
      var t := s.trackers[i];
      State(Bump(s.counters, Counter(t.kind, t.updates[j].next), 1), s.trackers[i := SetPhase(t, j, ToExit)])
    case Exit(i, j) =>
      var t := s.trackers[i];
      State(Bump(s.counters, Counter(t.kind, t.updates[j].prev), -1), s.trackers[i := SetPhase(t, j, Finished)])
  }

  // ------------------------------------------------------------------------ counting

  function One(b: bool): int { if b then 1 else 0 }

  /** What an unfinished update still owes the counter: minus its enter, plus its exit. */
  function Owed(x: Counter): Update -> int {
    (u: Update) => One(!u.phase.Finished? && u.prev == x.state) - One(u.phase.ToEnter? && u.next == x.state)
  }

  /** A tracker's contribution to a counter. */
  function Net(x: Counter): Tracker -> int {
    (t: Tracker) =>
      if t.attached && t.kind == x.kind then One(t.state == x.state) + Sum(t.updates, Owed(x)) else 0
  }

  predicate Real(x: Counter) { 0 < x.state < Max(x.kind) }

  ghost predicate Domain(s: State) { forall x: Counter :: x in s.counters <==> Real(x) }

  /** Each counter is, modulo 2^64, the number of attached trackers in its state,
      less the enters and plus the exits still owed. */
  ghost predicate Counts(s: State) {
    forall x: Counter :: Real(x) ==> x in s.counters && s.counters[x] == Sum(s.trackers, Net(x)) % TWO64
  }

  predicate TrackerInv(t: Tracker) {
    && t.state < Max(t.kind)
    && (forall j :: 0 <= j < |t.updates| ==>
          t.attached && t.updates[j].next < Max(t.kind) && t.updates[j].prev < Max(t.kind))
  }

  ghost predicate Inv(s: State) {
    Domain(s) && Counts(s) && forall i :: 0 <= i < |s.trackers| ==> TrackerInv(s.trackers[i])
  }

  lemma AdvanceIsNeutral(t: Tracker, next: nat, x: Counter)
    ensures Net(x)(AdvanceTracker(t, next)) == Net(x)(t)
  {
    if Allowed(t.kind, t.state, next) && t.attached {
      SumAppend(t.updates, Update(next, t.state, ToEnter), Owed(x));
    }
  }

  lemma PhaseShift(t: Tracker, j: nat, phase: Phase, x: Counter)
    requires j < |t.updates| && t.attached && t.kind == x.kind
    ensures Net(x)(SetPhase(t, j, phase)) ==
            Net(x)(t) - Owed(x)(t.updates[j]) + Owed(x)(t.updates[j].(phase := phase))
  {
    SumUpdate(t.updates, j, t.updates[j].(phase := phase), Owed(x));
  }

  lemma ModStep(a: int, delta: int)
    ensures (a % TWO64 + delta) % TWO64 == (a + delta) % TWO64
  {
    var q := a / TWO64;
    assert a == q * TWO64 + a % TWO64;
    ModShift(a % TWO64 + delta, q);
  }

  lemma {:induction false} ModShift(r: int, q: int)
    ensures (r + q * TWO64) % TWO64 == r % TWO64
    decreases if q < 0 then -q else q
  {
    if q > 0 {
      ModShift(r, q - 1);
      assert r + q * TWO64 == (r + (q - 1) * TWO64) + TWO64;
    } else if q < 0 {
      ModShift(r, q + 1);
      assert r + q * TWO64 == (r + (q + 1) * TWO64) - TWO64;
    }
  }

  /** One tracker changes and one counter moves by the difference of its contribution. */
  lemma ReplaceKeepsCounts(s: State, i: nat, t: Tracker, moved: Counter, delta: int, x: Counter)
    requires Inv(s) && i < |s.trackers| && Real(x)
    requires Net(x)(t) - Net(x)(s.trackers[i]) == if x == moved then delta else 0
    ensures x in Bump(s.counters, moved, delta)
    ensures Bump(s.counters, moved, delta)[x] == Sum(s.trackers[i := t], Net(x)) % TWO64
  {
    SumUpdate(s.trackers, i, t, Net(x));
    ModStep(Sum(s.trackers, Net(x)), delta);
  }

  /** An update moves on by one section, and its counter moves by what it owed. */
  lemma PhaseStepKeepsInv(s: State, i: nat, j: nat, phase: Phase, moved: Counter, delta: int)
    requires Inv(s) && HasUpdate(s, i, j) && moved.kind == s.trackers[i].kind
    requires forall x: Counter :: x.kind == moved.kind ==>
      Owed(x)(s.trackers[i].updates[j].(phase := phase)) - Owed(x)(s.trackers[i].updates[j])
        == if x == moved then delta else 0
    ensures Inv(State(Bump(s.counters, moved, delta), s.trackers[i := SetPhase(s.trackers[i], j, phase)]))
  {
    var t := s.trackers[i];
    var s' := State(Bump(s.counters, moved, delta), s.trackers[i := SetPhase(t, j, phase)]);
    assert TrackerInv(t);
    assert TrackerInv(s'.trackers[i]);
    forall x: Counter | Real(x)
      ensures x in s'.counters && s'.counters[x] == Sum(s'.trackers, Net(x)) % TWO64
    {
      if t.kind == x.kind { PhaseShift(t, j, phase, x); }
      ReplaceKeepsCounts(s, i, s'.trackers[i], moved, delta, x);
    }
  }

  lemma StepKeepsInv(s: State, step: Step)
    requires Inv(s) && Enabled(s, step)
    ensures Inv(Apply(s, step))
  {
    match step
    case Enter(i, j) =>
      PhaseStepKeepsInv(s, i, j, ToExit, Counter(s.trackers[i].kind, s.trackers[i].updates[j].next), 1);
    case Exit(i, j) =>
      PhaseStepKeepsInv(s, i, j, Finished, Counter(s.trackers[i].kind, s.trackers[i].updates[j].prev), -1);
    case NewTracker(kind, attached) =>
      forall x: Counter | Real(x) ensures Sum(Apply(s, step).trackers, Net(x)) == Sum(s.trackers, Net(x)) {
        SumAppend(s.trackers, Tracker(kind, attached, 0, []), Net(x));
      }
    case Advance(i, next) =>
      forall x: Counter | Real(x) ensures Sum(Apply(s, step).trackers, Net(x)) == Sum(s.trackers, Net(x)) {
        SumUpdate(s.trackers, i, AdvanceTracker(s.trackers[i], next), Net(x));
        AdvanceIsNeutral(s.trackers[i], next, x);
      }
  }

  // ---------------------------------------------------------------------------- runs

  const ZEROES: map<Counter, int> :=
    map[Counter(Req, 1) := 0, Counter(Req, 2) := 0, Counter(Req, 3) := 0,
        Counter(Con, 1) := 0, Counter(Con, 2) := 0, Counter(Con, 3) := 0, Counter(Con, 4) := 0, Counter(Con, 5) := 0]

  ghost predicate IsRun(run: seq<State>, steps: seq<Step>) {
    && |run| == |steps| + 1
    && run[0] == State(ZEROES, [])
    && forall i :: 0 <= i < |steps| ==> Enabled(run[i], steps[i]) && run[i + 1] == Apply(run[i], steps[i])
  }

  /** However the three sections of any number of `UpdateState` calls interleave, every
      counter equals, modulo 2^64, trackers in the state less owed enters plus owed exits. */
  lemma {:induction false} CountersTrackStates(run: seq<State>, steps: seq<Step>, n: nat)
    requires IsRun(run, steps) && n < |run|
    ensures Inv(run[n])
  {
    if n > 0 {
      CountersTrackStates(run, steps, n - 1);
      StepKeepsInv(run[n - 1], steps[n - 1]);
    }
  }

  /** An undisturbed update, forward or of a container back to idle after a call or after being done,
      moves one unit from the counter of the old state to that of the new one. */
  lemma UpdateMovesOne(s: State, i: nat, next: nat) returns (s1: State, s2: State, s3: State)
    requires Inv(s) && i < |s.trackers| && s.trackers[i].attached
    requires next < Max(s.trackers[i].kind) && 0 < s.trackers[i].state
    requires var t := s.trackers[i];
      t.state < next || (t.kind.Con? && next == CON_IDLE && (t.state == CON_BUSY || t.state == CON_DONE))
    ensures var j := |s.trackers[i].updates|;
      && s1 == Apply(s, Advance(i, next))
      && Enabled(s1, Enter(i, j)) && s2 == Apply(s1, Enter(i, j))
      && Enabled(s2, Exit(i, j)) && s3 == Apply(s2, Exit(i, j))
    ensures |s3.trackers| == |s.trackers| && s3.trackers[i].state == next
    ensures var to, from := Counter(s.trackers[i].kind, next), Counter(s.trackers[i].kind, s.trackers[i].state);
      && to in s.counters && from in s.counters
      && s3.counters == s.counters[to := (s.counters[to] + 1) % TWO64][from := (s.counters[from] - 1) % TWO64]
  {
    var j := |s.trackers[i].updates|;
    s1 := Apply(s, Advance(i, next));
    s2 := Apply(s1, Enter(i, j));
    s3 := Apply(s2, Exit(i, j));
    assert TrackerInv(s.trackers[i]);
  }

  /** A request never goes back, and a container that was idle once is never starting again. */
  lemma {:induction false} StatesAdvance(run: seq<State>, steps: seq<Step>, n: nat, m: nat, i: nat)
    requires IsRun(run, steps) && n <= m < |run| && i < |run[n].trackers|
    ensures i < |run[m].trackers| && run[m].trackers[i].kind == run[n].trackers[i].kind
    ensures var t, t' := run[n].trackers[i], run[m].trackers[i];
      && (t.kind.Req? ==> t.state <= t'.state)
      && (t.kind.Con? ==> t.state <= t'.state || (t.state > CON_IDLE && t'.state >= CON_IDLE))
  {
    if n < m {
      StatesAdvance(run, steps, n, m - 1, i);
      assert Enabled(run[m - 1], steps[m - 1]) && run[m] == Apply(run[m - 1], steps[m - 1]);
    }
  }

  // --------------------------------------------------------------- one update at a time

  predicate AllFinished(t: Tracker) { forall j :: 0 <= j < |t.updates| ==> t.updates[j].phase.Finished? }

  /** No tracker is advanced while an update of its own is unfinished. */
  ghost predicate Orderly(run: seq<State>, steps: seq<Step>)
    requires IsRun(run, steps)
  {
    forall i :: 0 <= i < |steps| && steps[i].Advance? ==>
      steps[i].i < |run[i].trackers| && AllFinished(run[i].trackers[steps[i].i])
  }

  predicate Calm(t: Tracker) {
    && (forall j :: 0 <= j < |t.updates| - 1 ==> t.updates[j].phase.Finished?)
    && (|t.updates| > 0 ==>
          var u := t.updates[|t.updates| - 1];
          u.prev != u.next && (u.phase.Finished? || u.next == t.state))
  }

  /** Is the tracker counted in `state`?  Between its enter and its exit it is counted twice. */
  predicate Shows(t: Tracker, state: nat) {
    if |t.updates| == 0 then t.state == state
    else
      match t.updates[|t.updates| - 1].phase
      case ToEnter => t.updates[|t.updates| - 1].prev == state
      case ToExit => t.updates[|t.updates| - 1].prev == state || t.state == state
      case Finished => t.state == state
  }

  function ShownOne(x: Counter): Tracker -> int {
    (t: Tracker) => One(t.attached && t.kind == x.kind && Shows(t, x.state))
  }

  lemma CalmNet(t: Tracker, x: Counter)
    requires Calm(t)
    ensures Net(x)(t) == ShownOne(x)(t)
  {
    if |t.updates| > 0 {
      var n := |t.updates| - 1;
      forall j | 0 <= j < n ensures Owed(x)(t.updates[..n][j]) == 0 { assert t.updates[..n][j] == t.updates[j]; }
      SumZero(t.updates[..n], Owed(x));
    }
  }

  lemma {:induction false} OrderlyIsCalm(run: seq<State>, steps: seq<Step>, n: nat)
    requires IsRun(run, steps) && Orderly(run, steps) && n < |run|
    ensures forall i :: 0 <= i < |run[n].trackers| ==> Calm(run[n].trackers[i])
  {
    if n > 0 {
      OrderlyIsCalm(run, steps, n - 1);
      var s, step := run[n - 1], steps[n - 1];
      assert Enabled(s, step) && run[n] == Apply(s, step);
      forall i | 0 <= i < |run[n].trackers| ensures Calm(run[n].trackers[i]) {
        if i < |s.trackers| { assert Calm(s.trackers[i]); }
        if step.Advance? { assert AllFinished(s.trackers[step.i]); }
      }
    }
  }

  /** When no tracker's own updates overlap, a counter is exactly the number of trackers
      counted in its state, so it never wraps. */
  lemma OrderlyCountersAreExact(run: seq<State>, steps: seq<Step>, n: nat, x: Counter)
    requires IsRun(run, steps) && Orderly(run, steps) && n < |run| && Real(x)
    requires |run[n].trackers| < TWO64
    ensures x in run[n].counters && run[n].counters[x] == Sum(run[n].trackers, ShownOne(x))
  {
    CountersTrackStates(run, steps, n);
    OrderlyIsCalm(run, steps, n);
    var s := run[n];
    forall i | 0 <= i < |s.trackers| ensures Net(x)(s.trackers[i]) == ShownOne(x)(s.trackers[i]) {
      CalmNet(s.trackers[i], x);
    }
    SameSum(s.trackers, Net(x), ShownOne(x));
    SumAtMost(s.trackers, ShownOne(x));
  }

  /** `isIdle` on the six counters it reads. */
  ghost predicate IsIdle(counters: map<Counter, int>) {
    forall x: Counter :: Watched(x) && x in counters ==> counters[x] == 0
  }

  /** Overlapping updates of one tracker can wrap a counter: a container tracker that is
      set to busy by its slot loop and to done by `runHot` exits busy before entering it. */
  lemma OverlapUnderflows() returns (run: seq<State>, steps: seq<Step>)
    ensures IsRun(run, steps) && !Orderly(run, steps)
    ensures Counter(Con, CON_BUSY) in run[|run| - 1].counters
    ensures run[|run| - 1].counters[Counter(Con, CON_BUSY)] == TWO64 - 1
  {
    var s0 := State(ZEROES, []);
    var s1 := Apply(s0, NewTracker(Con, true));
    var s2 := Apply(s1, Advance(0, CON_IDLE));
    var s3 := Apply(s2, Enter(0, 0));
    var s4 := Apply(s3, Exit(0, 0));
    assert s4.trackers[0].updates == [Update(CON_IDLE, 0, Finished)];
    var s5 := Apply(s4, Advance(0, CON_BUSY));
    var s6 := Apply(s5, Advance(0, CON_DONE));
    assert s6.trackers[0].updates[2] == Update(CON_DONE, CON_BUSY, ToEnter);
    var s7 := Apply(s6, Enter(0, 2));
    var s8 := Apply(s7, Exit(0, 2));
    run := [s0, s1, s2, s3, s4, s5, s6, s7, s8];
    steps := [NewTracker(Con, true), Advance(0, CON_IDLE), Enter(0, 0), Exit(0, 0),
              Advance(0, CON_BUSY), Advance(0, CON_DONE), Enter(0, 2), Exit(0, 2)];
    assert steps[5].Advance? && !AllFinished(run[5].trackers[0]) by {
      assert !run[5].trackers[0].updates[1].phase.Finished?;
    }
  }

  // --------------------------------------------------------------------- the objects

  /** `slotQueue` as the trackers see it: the counters under `statsLock`. */
  class QueueStats {
    const key: Bytes
    var counters: map<Counter, int>

    constructor (key: Bytes)
      ensures this.key == key && counters == ZEROES
    {
      this.key := key;
      counters := ZEROES;
    }

    /** `isIdle`: the six counters it reads are all that `IsIdle` asks about. */
    method IsIdleLocked() returns (idle: bool)
      requires forall x: Counter :: x in counters <==> Real(x)
      ensures idle <==> IsIdle(counters)
    {
      var c := counters;
      idle :=
        && c[Counter(Req, REQ_WAIT)] == 0 && c[Counter(Req, REQ_EXEC)] == 0
        && c[Counter(Con, CON_WAIT)] == 0 && c[Counter(Con, CON_START)] == 0
        && c[Counter(Con, CON_IDLE)] == 0 && c[Counter(Con, CON_BUSY)] == 0;
    }

    method EnterState(x: Counter)
      modifies this
      ensures counters == Bump(old(counters), x, 1)
    {
      if 0 < x.state < Max(x.kind) && x in counters {
        counters := counters[x := (counters[x] + 1) % TWO64];
      }
    }

    method ExitState(x: Counter)
      modifies this
      ensures counters == Bump(old(counters), x, -1)
    {
      if 0 < x.state < Max(x.kind) && x in counters {
        counters := counters[x := (counters[x] - 1) % TWO64];
      }
    }
  }

  /** `requestState` or `containerState`. */
  class StateTracker {
    const kind: Kind
    var state: nat

    constructor (kind: Kind)
      ensures this.kind == kind && state == 0
    {
      this.kind := kind;
      state := 0;
    }

    /** `UpdateState` when nothing interferes: forward moves reach the queue, others do nothing. */
    method UpdateState(next: nat, slots: QueueStats?)
      modifies this, slots
      ensures state == if Allowed(kind, old(state), next) then next else old(state)
      ensures slots != null ==>
                slots.counters ==
                  if Allowed(kind, old(state), next)
                  then Bump(Bump(old(slots.counters), Counter(kind, next), 1), Counter(kind, old(state)), -1)
                  else old(slots.counters)
    {
      var prev := state;
      if !Allowed(kind, state, next) {
        return;
      }
      state := next;
      if slots != null {
        slots.EnterState(Counter(kind, next));
        slots.ExitState(Counter(kind, prev));
      }
    }
  }

  /** `slotQueueMgr`: the queues by key. */
  class SlotQueueMgr {
    var hot: map<Bytes, QueueStats>

    ghost predicate Valid()
      reads this
    {
      forall k :: k in hot ==> hot[k].key == k
    }

    constructor ()
      ensures Valid() && hot == map[]
    {
      hot := map[];
    }

    /** `getSlotQueue`: calls with equal keys share one queue, and only a new key makes a new one. */
    method GetSlotQueue(key: Bytes) returns (slots: QueueStats, isNew: bool)
      requires Valid()
      modifies this
      ensures Valid() && key in hot && hot[key] == slots
      ensures isNew <==> key !in old(hot)
      ensures isNew ==> fresh(slots) && slots.counters == ZEROES && hot == old(hot)[key := slots]
      ensures !isNew ==> hot == old(hot)
    {
      isNew := key !in hot;
      if isNew {
        slots := new QueueStats(key);
        hot := hot[key := slots];
      } else {
        slots := hot[key];
      }
    }

    /** `deleteSlotQueue`: exactly an idle queue loses its key. */
    method DeleteSlotQueue(slots: QueueStats) returns (isDeleted: bool)
      requires Valid() && forall x: Counter :: x in slots.counters <==> Real(x)
      modifies this
      ensures Valid()
      ensures isDeleted <==> IsIdle(slots.counters)
      ensures hot == if isDeleted then old(hot) - {slots.key} else old(hot)
    {
      isDeleted := slots.IsIdleLocked();
      if isDeleted {
        hot := hot - {slots.key};
      }
    }
  }
}
