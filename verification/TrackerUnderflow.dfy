/** Exactly when the state counters can underflow: a tracker must not be advanced while an
    update of its own has yet to enter its state. */
module TrackerUnderflow {
  import opened Words
  import opened SeqSum
  import opened Trackers

  /** The value of a counter without wrapping: enters counted less exits counted. */
  function Ideal(s: State, x: Counter): int { Sum(s.trackers, Net(x)) }

  predicate EntersPending(t: Tracker) { exists j :: 0 <= j < |t.updates| && t.updates[j].phase.ToEnter? }

  /** The step takes a tracker on from a state that it has not been counted in yet. */
  predicate Overtakes(s: State, step: Step) {
    && step.Advance? && step.i < |s.trackers|
    && s.trackers[step.i].attached && Allowed(s.trackers[step.i].kind, s.trackers[step.i].state, step.next)
    && EntersPending(s.trackers[step.i])
  }

  ghost predicate TidyUpTo(run: seq<State>, steps: seq<Step>, n: nat)
    requires IsRun(run, steps) && n <= |steps|
  {
    forall i :: 0 <= i < n ==> !Overtakes(run[i], steps[i])
  }

  // ------------------------------------------------------------------------ tidy trackers

  /** Only the latest update may have its enter pending, and it is the one to the present state. */
  predicate Tidy(t: Tracker) {
    && t.state < Max(t.kind) && (!t.attached ==> t.updates == [])
    && (forall j :: 0 <= j < |t.updates| ==> t.updates[j].prev != t.updates[j].next)
    && (forall j :: 0 <= j < |t.updates| && t.updates[j].phase.ToEnter? ==>
          j == |t.updates| - 1 && t.updates[j].next == t.state > 0)
  }

  predicate AllTidy(s: State) { forall i :: 0 <= i < |s.trackers| ==> Tidy(s.trackers[i]) }

  /** A tidy tracker never counts below zero, and an exit it still owes is covered. */
  lemma TidyContribution(t: Tracker, x: Counter)
    requires Tidy(t)
    ensures Net(x)(t) >= 0
    ensures t.attached && t.kind == x.kind ==>
      forall j :: 0 <= j < |t.updates| && t.updates[j].phase.ToExit? && t.updates[j].prev == x.state ==> Net(x)(t) >= 1
  {
    if |t.updates| > 0 {
      var n := |t.updates| - 1;
      forall j | 0 <= j < n ensures Owed(x)(t.updates[..n][j]) >= 0 && t.updates[..n][j] == t.updates[j] {
        assert !t.updates[j].phase.ToEnter?;
      }
      SumBounds(t.updates[..n], Owed(x));
      forall j | 0 <= j < |t.updates| && t.updates[j].phase.ToExit? && t.updates[j].prev == x.state
        ensures One(t.state == x.state) + Sum(t.updates, Owed(x)) >= 1
      {
        if j < n { assert Owed(x)(t.updates[..n][j]) <= Sum(t.updates[..n], Owed(x)); }
      }
    }
  }

  lemma StepKeepsTidy(s: State, step: Step)
    requires AllTidy(s) && Enabled(s, step) && !Overtakes(s, step)
    ensures AllTidy(Apply(s, step))
  {
    var s' := Apply(s, step);
    forall i | 0 <= i < |s'.trackers| ensures Tidy(s'.trackers[i]) {
      if i < |s.trackers| { assert Tidy(s.trackers[i]); }
    }
  }

  lemma {:induction false} TidyRunsStayTidy(run: seq<State>, steps: seq<Step>, n: nat)
    requires IsRun(run, steps) && n <= |steps| && TidyUpTo(run, steps, n)
    ensures AllTidy(run[n])
  {
    if n > 0 {
      assert TidyUpTo(run, steps, n - 1);
      TidyRunsStayTidy(run, steps, n - 1);
      StepKeepsTidy(run[n - 1], steps[n - 1]);
    }
  }

  // ---------------------------------------------------------------------- continuations

  /** A continuation without overtaking. */
  predicate Path(s: State, steps: seq<Step>, s': State)
    decreases |steps|
  {
    if steps == [] then s == s'
    else Enabled(s, steps[0]) && !Overtakes(s, steps[0]) && Path(Apply(s, steps[0]), steps[1..], s')
  }

  lemma {:induction false} PathJoin(s: State, a: seq<Step>, m: State, b: seq<Step>, e: State)
    requires Path(s, a, m) && Path(m, b, e)
    ensures Path(s, a + b, e)
    decreases |a|
  {
    if a == [] {
      assert a + b == b;
    } else {
      assert (a + b)[1..] == a[1..] + b;
      PathJoin(Apply(s, a[0]), a[1..], m, b, e);
    }
  }

  lemma PathStep(s: State, steps: seq<Step>, m: State, step: Step)
    requires Path(s, steps, m) && Enabled(m, step) && !Overtakes(m, step)
    ensures Path(s, steps + [step], Apply(m, step))
  {
    assert [step][1..] == [];
    assert Path(m, [step], Apply(m, step));
    PathJoin(s, steps, m, [step], Apply(m, step));
  }

  lemma {:induction false} PathKeeps(s: State, steps: seq<Step>, s': State)
    requires Path(s, steps, s')
    ensures AllTidy(s) ==> AllTidy(s')
    ensures Inv(s) ==> Inv(s')
    decreases |steps|
  {
    if steps != [] {
      if AllTidy(s) { StepKeepsTidy(s, steps[0]); }
      if Inv(s) { StepKeepsInv(s, steps[0]); }
      PathKeeps(Apply(s, steps[0]), steps[1..], s');
    }
  }

  /** More exits than enters were counted, and the uint64 counter shows it. */
  predicate Underflowed(s: State, x: Counter) {
    Real(x) && Ideal(s, x) < 0 && x in s.counters && s.counters[x] == TWO64 + Ideal(s, x)
  }

  ghost predicate CanUnderflow(s: State) { exists steps, s', x :: Path(s, steps, s') && Underflowed(s', x) }

  lemma TidyCannotUnderflow(s: State)
    requires AllTidy(s)
    ensures !CanUnderflow(s)
  {
    forall steps, s', x | Path(s, steps, s') ensures Ideal(s', x) >= 0 {
      PathKeeps(s, steps, s');
      TidyIdeal(s', x);
    }
  }

  lemma TidyIdeal(s: State, x: Counter)
    requires AllTidy(s)
    ensures Ideal(s, x) >= 0
    ensures forall i :: 0 <= i < |s.trackers| ==> Net(x)(s.trackers[i]) <= Ideal(s, x)
  {
    forall i | 0 <= i < |s.trackers| ensures Net(x)(s.trackers[i]) >= 0 { TidyContribution(s.trackers[i], x); }
    SumBounds(s.trackers, Net(x));
  }

  // ------------------------------------------------------- what overtaking makes possible

  /** All exits due among the first `k` updates have run. */
  function Exited(t: Tracker, k: nat): Tracker {
    t.(updates := seq(|t.updates|, j requires 0 <= j < |t.updates| =>
      if j < k && t.updates[j].phase.ToExit? then t.updates[j].(phase := Finished) else t.updates[j]))
  }

  lemma {:induction false} RunExits(s: State, i: nat, k: nat) returns (steps: seq<Step>, s': State)
    requires i < |s.trackers| && k <= |s.trackers[i].updates|
    ensures Path(s, steps, s') && s'.trackers == s.trackers[i := Exited(s.trackers[i], k)]
  {
    var t := s.trackers[i];
    if k == 0 {
      steps, s' := [], s;
      assert Exited(t, 0) == t;
    } else {
      steps, s' := RunExits(s, i, k - 1);
      var t' := Exited(t, k - 1);
      assert s'.trackers[i] == t' && t'.updates[k - 1] == t.updates[k - 1];
      if t.updates[k - 1].phase.ToExit? {
        PathStep(s, steps, s', Exit(i, k - 1));
        steps, s' := steps + [Exit(i, k - 1)], Apply(s', Exit(i, k - 1));
        assert SetPhase(t', k - 1, Finished) == Exited(t, k);
      } else {
        assert t' == Exited(t, k);
      }
    }
  }

  /** Everything a tidy tracker has pending can run to its end. */
  lemma Settle(s: State, i: nat) returns (steps: seq<Step>, s': State)
    requires i < |s.trackers| && Tidy(s.trackers[i])
    ensures Path(s, steps, s') && |s'.trackers| == |s.trackers| && s'.trackers == s.trackers[i := s'.trackers[i]]
    ensures var t, t' := s.trackers[i], s'.trackers[i];
      AllFinished(t') && t'.kind == t.kind && t'.attached == t.attached && t'.state == t.state
  {
    var t, last := s.trackers[i], |s.trackers[i].updates| - 1;
    steps, s' := [], s;
    if last >= 0 && t.updates[last].phase.ToEnter? {
      PathStep(s, steps, s', Enter(i, last));
      steps, s' := [Enter(i, last)], Apply(s, Enter(i, last));
    }
    var t1 := s'.trackers[i];
    assert forall j :: 0 <= j < |t1.updates| ==> !t1.updates[j].phase.ToEnter?;
    var more, e := RunExits(s', i, |t1.updates|);
    PathJoin(s, steps, s', more, e);
    steps, s' := steps + more, e;
  }

  lemma FinishedContribution(t: Tracker, x: Counter)
    requires AllFinished(t)
    ensures Net(x)(t) == One(t.attached && t.kind == x.kind && t.state == x.state)
  {
    SumZero(t.updates, Owed(x));
  }

  /** A tracker can get out of a state that can be left, and stop counting there. */
  lemma Leave(s: State, i: nat, x: Counter, next: nat) returns (steps: seq<Step>, s': State)
    requires i < |s.trackers| && Tidy(s.trackers[i])
    requires next < Max(x.kind) && Allowed(x.kind, x.state, next)
    ensures Path(s, steps, s') && |s'.trackers| == |s.trackers| && s'.trackers == s.trackers[i := s'.trackers[i]]
    ensures Net(x)(s'.trackers[i]) == 0
  {
    steps, s' := Settle(s, i);
    var t := s'.trackers[i];
    if t.attached && t.kind == x.kind && t.state == x.state {
      var j := |t.updates|;
      PathStep(s, steps, s', Advance(i, next));
      steps, s' := steps + [Advance(i, next)], Apply(s', Advance(i, next));
      PathStep(s, steps, s', Enter(i, j));
      steps, s' := steps + [Enter(i, j)], Apply(s', Enter(i, j));
      PathStep(s, steps, s', Exit(i, j));
      steps, s' := steps + [Exit(i, j)], Apply(s', Exit(i, j));
      assert AllFinished(s'.trackers[i]) && s'.trackers[i].state == next;
    }
    FinishedContribution(s'.trackers[i], x);
  }

  /** All trackers below `k` other than `o` can stop counting in the state. */
  lemma {:induction false} OthersLeave(s: State, o: nat, k: nat, x: Counter, next: nat)
    returns (steps: seq<Step>, s': State)
    requires k <= |s.trackers| && next < Max(x.kind) && Allowed(x.kind, x.state, next)
    requires forall i :: 0 <= i < |s.trackers| && i != o ==> Tidy(s.trackers[i])
    ensures Path(s, steps, s') && |s'.trackers| == |s.trackers|
    ensures forall i :: k <= i < |s.trackers| || i == o < |s.trackers| ==> s'.trackers[i] == s.trackers[i]
    ensures forall i :: 0 <= i < k && i != o ==> Net(x)(s'.trackers[i]) == 0
  {
    if k == 0 {
      steps, s' := [], s;
    } else {
      steps, s' := OthersLeave(s, o, k - 1, x, next);
      if k - 1 != o {
        var more, e := Leave(s', k - 1, x, next);
        PathJoin(s, steps, s', more, e);
        steps, s' := steps + more, e;
      }
    }
  }

  /** A tracker that has just overtaken its own update. */
  predicate HasOvertaken(t: Tracker, x: Counter, next: nat) {
    && t.attached && t.kind == x.kind && t.state == next && next != x.state && |t.updates| >= 2
    && var m := |t.updates| - 2;
    && t.updates[m + 1] == Update(next, x.state, ToEnter)
    && t.updates[m].phase.ToEnter? && t.updates[m].next == x.state && t.updates[m].prev != x.state
    && forall j :: 0 <= j < m ==> !t.updates[j].phase.ToEnter?
  }

  /** Its new update can exit the state before the old one enters it. */
  lemma ExitBeforeEnter(s: State, i: nat, x: Counter, next: nat) returns (steps: seq<Step>, s': State)
    requires i < |s.trackers| && HasOvertaken(s.trackers[i], x, next)
    ensures Path(s, steps, s') && |s'.trackers| == |s.trackers| && s'.trackers == s.trackers[i := s'.trackers[i]]
    ensures Net(x)(s'.trackers[i]) == -1
  {
    var t := s.trackers[i];
    var m := |t.updates| - 2;
    steps, s' := RunExits(s, i, |t.updates|);
    PathStep(s, steps, s', Enter(i, m + 1));
    steps, s' := steps + [Enter(i, m + 1)], Apply(s', Enter(i, m + 1));
    PathStep(s, steps, s', Exit(i, m + 1));
    steps, s' := steps + [Exit(i, m + 1)], Apply(s', Exit(i, m + 1));
    OneEnterMissing(s'.trackers[i], m, x);
  }

  lemma OneEnterMissing(t: Tracker, m: nat, x: Counter)
    requires m < |t.updates| && t.attached && t.kind == x.kind && t.state != x.state
    requires t.updates[m].phase.ToEnter? && t.updates[m].next == x.state && t.updates[m].prev != x.state
    requires forall j :: 0 <= j < |t.updates| && j != m ==> t.updates[j].phase.Finished?
    ensures Net(x)(t) == -1
  {
    var u := t.updates[m].(phase := Finished);
    SumUpdate(t.updates, m, u, Owed(x));
    SumZero(t.updates[m := u], Owed(x));
  }

  /** One overtaking step, and some continuation without any makes a counter underflow. */
  lemma OvertakingCanUnderflow(s: State, i: nat, next: nat)
    requires Inv(s) && AllTidy(s) && Enabled(s, Advance(i, next)) && Overtakes(s, Advance(i, next))
    ensures CanUnderflow(Apply(s, Advance(i, next)))
  {
    var x := Counter(s.trackers[i].kind, s.trackers[i].state);
    var s0 := Apply(s, Advance(i, next));
    StepKeepsInv(s, Advance(i, next));
    JustOvertaken(s, i, next);
    hide Inv, AllTidy, Tidy, HasOvertaken, Overtakes, Allowed, Path, Net, Ideal, Apply;
    var a, s1 := OthersLeave(s0, i, |s0.trackers|, x, next);
    var b, s2 := ExitBeforeEnter(s1, i, x, next);
    PathJoin(s0, a, s1, b, s2);
    PathKeeps(s0, a + b, s2);
    OnlyOneCounts(s2, i, x);
    NegativeShows(s2, x);
  }

  lemma JustOvertaken(s: State, i: nat, next: nat)
    requires AllTidy(s) && Enabled(s, Advance(i, next)) && Overtakes(s, Advance(i, next))
    ensures var s', x := Apply(s, Advance(i, next)), Counter(s.trackers[i].kind, s.trackers[i].state);
      && |s'.trackers| == |s.trackers| && HasOvertaken(s'.trackers[i], x, next)
      && next < Max(x.kind) && Allowed(x.kind, x.state, next) && Real(x)
      && forall k :: 0 <= k < |s.trackers| && k != i ==> Tidy(s'.trackers[k])
  {
    assert Tidy(s.trackers[i]);
  }

  lemma NegativeShows(s: State, x: Counter)
    requires Inv(s) && Real(x) && Ideal(s, x) == -1
    ensures Underflowed(s, x)
  {
  }

  lemma OnlyOneCounts(s: State, i: nat, x: Counter)
    requires i < |s.trackers| && forall k :: 0 <= k < |s.trackers| && k != i ==> Net(x)(s.trackers[k]) == 0
    ensures Ideal(s, x) == Net(x)(s.trackers[i])
  {
    var none := Tracker(x.kind, false, 0, []);
    SumUpdate(s.trackers, i, none, Net(x));
    SumZero(s.trackers[i := none], Net(x));
  }

  // ---------------------------------------------------------------------------- theorems

  lemma {:induction false} FirstOvertaking(run: seq<State>, steps: seq<Step>, i: nat) returns (k: nat)
    requires IsRun(run, steps) && i < |steps| && Overtakes(run[i], steps[i])
    ensures k <= i && Overtakes(run[k], steps[k]) && TidyUpTo(run, steps, k)
    decreases i
  {
    if TidyUpTo(run, steps, i) {
      k := i;
    } else {
      var j: nat :| j < i && Overtakes(run[j], steps[j]);
      k := FirstOvertaking(run, steps, j);
    }
  }

  /** A run never overtakes if and only if nowhere along it a counter can be made to underflow
      by going on without overtaking. */
  lemma TidyIffNoUnderflow(run: seq<State>, steps: seq<Step>)
    requires IsRun(run, steps)
    ensures TidyUpTo(run, steps, |steps|) <==> forall n :: 0 <= n < |run| ==> !CanUnderflow(run[n])
  {
    if TidyUpTo(run, steps, |steps|) {
      forall n | 0 <= n < |run| ensures !CanUnderflow(run[n]) {
        assert TidyUpTo(run, steps, n);
        TidyRunsStayTidy(run, steps, n);
        TidyCannotUnderflow(run[n]);
      }
    } else {
      var i: nat :| i < |steps| && Overtakes(run[i], steps[i]);
      var k := FirstOvertaking(run, steps, i);
      TidyRunsStayTidy(run, steps, k);
      CountersTrackStates(run, steps, k);
      OvertakingCanUnderflow(run[k], steps[k].i, steps[k].next);
      assert CanUnderflow(run[k + 1]);
    }
  }

  lemma {:induction false} IdealIsBounded(run: seq<State>, steps: seq<Step>, n: nat, x: Counter)
    requires IsRun(run, steps) && n < |run| && Real(x)
    ensures Ideal(run[n], x) <= n
  {
    if n > 0 {
      IdealIsBounded(run, steps, n - 1, x);
      var s, step := run[n - 1], steps[n - 1];
      CountersTrackStates(run, steps, n - 1);
      assert Enabled(s, step) && run[n] == Apply(s, step);
      match step
      case NewTracker(kind, attached) => SumAppend(s.trackers, Tracker(kind, attached, 0, []), Net(x));
      case Advance(i, next) =>
        AdvanceIsNeutral(s.trackers[i], next, x);
        SumUpdate(s.trackers, i, AdvanceTracker(s.trackers[i], next), Net(x));
      case Enter(i, j) => SectionMoves(s, i, j, ToExit, x);
      case Exit(i, j) => SectionMoves(s, i, j, Finished, x);
    }
  }

  lemma SectionMoves(s: State, i: nat, j: nat, phase: Phase, x: Counter)
    requires HasUpdate(s, i, j)
    requires (phase.ToExit? && s.trackers[i].updates[j].phase.ToEnter?)
          || (phase.Finished? && s.trackers[i].updates[j].phase.ToExit?)
    ensures Sum(s.trackers[i := SetPhase(s.trackers[i], j, phase)], Net(x)) <= Ideal(s, x) + 1
  {
    var t := s.trackers[i];
    SumUpdate(s.trackers, i, SetPhase(t, j, phase), Net(x));
    if t.attached && t.kind == x.kind { PhaseShift(t, j, phase, x); }
  }

  /** The exit section of an update is about to take one from the counter. */
  predicate ExitDue(s: State, i: nat, j: nat, x: Counter) {
    Enabled(s, Exit(i, j)) && Counter(s.trackers[i].kind, s.trackers[i].updates[j].prev) == x
  }

  /** Without overtaking no exit finds its counter at zero: the ideal value covers every exit that
      is due, and the counter is that value as long as the value, or just the run, is below 2^64. */
  lemma TidyExitsNeverUnderflow(run: seq<State>, steps: seq<Step>, n: nat, x: Counter)
    requires IsRun(run, steps) && n < |run| && TidyUpTo(run, steps, n) && Real(x)
    ensures x in run[n].counters && run[n].counters[x] == Ideal(run[n], x) % TWO64
    ensures 0 <= Ideal(run[n], x) <= n
    ensures Ideal(run[n], x) < TWO64 ==> run[n].counters[x] == Ideal(run[n], x)
    ensures forall i: nat, j: nat :: ExitDue(run[n], i, j, x) ==> Ideal(run[n], x) > 0
  {
    var s := run[n];
    CountersTrackStates(run, steps, n);
    TidyRunsStayTidy(run, steps, n);
    IdealIsBounded(run, steps, n, x);
    TidyIdeal(s, x);
    forall i: nat, j: nat | ExitDue(s, i, j, x) ensures Ideal(s, x) > 0 { TidyContribution(s.trackers[i], x); }
  }

  // --------------------------------------------------------------------------- idle queues

  /** Is the tracker counted in `state`?  It is from its enter on, and until its exit. */
  predicate Counted(t: Tracker, state: nat) {
    && t.attached
    && ((t.state == state && !EntersPending(t))
        || exists j :: 0 <= j < |t.updates| && !t.updates[j].phase.Finished? && t.updates[j].prev == state)
  }

  lemma CountedContributes(t: Tracker, x: Counter)
    requires Tidy(t) && t.kind == x.kind && Counted(t, x.state)
    ensures Net(x)(t) > 0
  {
    TidyContribution(t, x);
    if |t.updates| > 0 {
      var n := |t.updates| - 1;
      forall j | 0 <= j < n ensures Owed(x)(t.updates[..n][j]) >= 0 { assert t.updates[..n][j] == t.updates[j]; }
      SumBounds(t.updates[..n], Owed(x));
    }
  }

  lemma UncountedContributesNothing(t: Tracker, x: Counter)
    requires Tidy(t) && (t.kind != x.kind || !Counted(t, x.state))
    ensures Net(x)(t) == 0
  {
    if t.attached && t.kind == x.kind && |t.updates| > 0 {
      var n := |t.updates| - 1;
      forall j | 0 <= j < n ensures Owed(x)(t.updates[..n][j]) == 0 { assert t.updates[..n][j] == t.updates[j]; }
      SumZero(t.updates[..n], Owed(x));
      assert t.updates[n].phase.Finished? || t.updates[n].prev != x.state;
      assert t.updates[n].phase.ToEnter? ==> EntersPending(t);
    }
  }

  predicate CountedActive(t: Tracker) {
    exists state :: 0 <= state < Max(t.kind) && Watched(Counter(t.kind, state)) && Counted(t, state)
  }

  lemma ActiveIfCounted(t: Tracker, x: Counter)
    requires Watched(x)
    ensures t.kind == x.kind && Counted(t, x.state) ==> CountedActive(t)
  {
  }

  /** `deleteSlotQueue` deletes a queue exactly when no attached tracker is counted as active, in
      every run without overtaking whose counts fit into 64 bits. */
  lemma DeletesOnlyIdleQueues(run: seq<State>, steps: seq<Step>, n: nat)
    requires IsRun(run, steps) && n < |run| && TidyUpTo(run, steps, n)
    requires forall x: Counter :: Real(x) ==> Ideal(run[n], x) < TWO64
    ensures IsIdle(run[n].counters) <==> forall i :: 0 <= i < |run[n].trackers| ==> !CountedActive(run[n].trackers[i])
  {
    var s := run[n];
    TidyRunsStayTidy(run, steps, n);
    if exists i :: 0 <= i < |s.trackers| && CountedActive(s.trackers[i]) {
      var i: nat :| i < |s.trackers| && CountedActive(s.trackers[i]);
      var t := s.trackers[i];
      var state: nat :| state < Max(t.kind) && Watched(Counter(t.kind, state)) && Counted(t, state);
      var x := Counter(t.kind, state);
      TidyExitsNeverUnderflow(run, steps, n, x);
      CountedContributes(t, x);
      TidyIdeal(s, x);
      assert s.counters[x] > 0;
    } else {
      forall x: Counter | Watched(x) && x in s.counters ensures s.counters[x] == 0 {
        TidyExitsNeverUnderflow(run, steps, n, x);
        forall i | 0 <= i < |s.trackers| ensures Net(x)(s.trackers[i]) == 0 {
          ActiveIfCounted(s.trackers[i], x);
          UncountedContributesNothing(s.trackers[i], x);
        }
        SumZero(s.trackers, Net(x));
      }
    }
  }
}
