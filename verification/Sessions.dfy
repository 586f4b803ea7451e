/** Shutdown sessions: `common.WaitGroup` and the goroutines of an agent that hold
    its sessions.  Every interleaving of any number of them and of closers. */
module Sessions {
  import opened SeqSum

  const MAX_U64: nat := 0xFFFF_FFFF_FFFF_FFFF

  /** The fields that the group's lock protects. */
  datatype Group = Group(isClosed: bool, sessions: nat)

  /** `AddSession(1)`. */
  predicate Admits(g: Group) { !g.isClosed && g.sessions != MAX_U64 - 1 }
  function Admit(g: Group): Group { if Admits(g) then g.(sessions := g.sessions + 1) else g }

  /** `common.WaitGroup`: each method is one lock region. */
  class WaitGroup {
    var isClosed: bool
    var sessions: nat
    ghost var closerCloses: nat   // how often the closer channel was closed

    function Value(): Group
      reads this
    {
      Group(isClosed, sessions)
    }

    ghost predicate Valid()
      reads this
    {
      sessions < MAX_U64 && closerCloses == if isClosed then 1 else 0
    }

    constructor ()
      ensures Valid() && Value() == Group(false, 0)
    {
      isClosed, sessions, closerCloses := false, 0, 0;
    }

    /** For any delta: it is refused only where the sum is the very maximum, so a larger sum wraps
        around.  The unit delta of all callers is `Admit` and never wraps. */
    method AddSession(delta: nat) returns (ok: bool)
      requires Valid() && delta <= MAX_U64
      modifies this`sessions
      ensures Valid() && (ok <==> !isClosed && old(sessions) + delta != MAX_U64)
      ensures !ok ==> sessions == old(sessions)
      ensures ok ==> sessions == if old(sessions) + delta <= MAX_U64 then old(sessions) + delta
                                 else old(sessions) + delta - MAX_U64 - 1
      ensures delta == 1 ==> Value() == Admit(old(Value())) && ok == Admits(old(Value()))
    {
      if isClosed {
        return false;
      }
      if sessions == MAX_U64 - delta {
        return false;
      }
      sessions := (sessions + delta) % (MAX_U64 + 1);
      return true;
    }

    /** The answer `panics` is the misuse branch; `broadcast` wakes the closers. */
    method DoneSession() returns (panics: bool, broadcast: bool)
      requires Valid()
      modifies this`sessions
      ensures Valid() && isClosed == old(isClosed)
      ensures panics <==> old(sessions) == 0
      ensures panics ==> sessions == 0 && !broadcast
      ensures !panics ==> sessions == old(sessions) - 1 && (broadcast <==> sessions == 0)
    {
      if sessions == 0 {
        return true, false;
      }
      sessions := sessions - 1;
      return false, sessions == 0;
    }

    /** `CloseGroup` up to its first wait: it returns at once iff no session is left. */
    method CloseGroup() returns (waits: bool)
      requires Valid()
      modifies this
      ensures Valid() && isClosed && sessions == old(sessions)
      ensures waits <==> sessions != 0
    {
      if !isClosed {
        isClosed := true;
        closerCloses := closerCloses + 1;
      }
      waits := sessions != 0;
    }
  }

  // --------------------------------------------------------------------- goroutines

  /** `asyncDequeue`: `Owning` has a session; `HandedOver` gave it to the async run
      it spawned and has yet to ask for another. */
  datatype LoopPc = Owning | HandedOver | LoopEnded

  /** A scheduled call end first leaves the stacking counter, then ends its session. */
  datatype EndPc = Counted | Uncounted | EndEnded

  datatype CloserPc = Entering | Asleep | Woken | Through | Finished

  datatype Actor =
    | DequeueLoop(loop: LoopPc)
    | AsyncRun(running: bool)
    | Submit(submitting: bool)
    | CallEnd(end: EndPc)
    | HotContainer(alive: bool)
    | Closer(closer: CloserPc)

  datatype State = State(group: Group, panicked: bool, callEndCount: int, driverCloses: nat, actors: seq<Actor>)

  datatype Step =
    | StartLoop
    | LoopStops(i: nat)       // the closer channel is closed
    | LoopHandsOver(i: nat)   // a call was dequeued
    | LoopRenews(i: nat)
    | AsyncRunEnds(i: nat)
    | StartSubmit
    | SubmitEnds(i: nat)
    | SubmitSchedules(i: nat)
    | CallEndRuns(i: nat)
    | CallEndEnds(i: nat)
    | Launch
    | ContainerEnds(i: nat)
    | StartClose
    | CloserLooks(i: nat)
    | CloserFinishes(i: nat)

  /** Does the goroutine own a session? */
  predicate Holds(a: Actor) {
    match a
    case DequeueLoop(pc) => pc.Owning?
    case AsyncRun(running) => running
    case Submit(submitting) => submitting
    case CallEnd(pc) => !pc.EndEnded?
    case HotContainer(alive) => alive
    case Closer(_) => false
  }

  function HoldsOne(a: Actor): int { if Holds(a) then 1 else 0 }
  function CountedOne(a: Actor): int { if a.CallEnd? && a.end.Counted? then 1 else 0 }

  function Wake(a: Actor): Actor { if a == Closer(Asleep) then Closer(Woken) else a }

  function WakeAll(actors: seq<Actor>): seq<Actor> {
    seq(|actors|, i requires 0 <= i < |actors| => Wake(actors[i]))
  }

  /** A new goroutine that starts by asking for a session. */
  function Start(s: State, a: Actor): State {
    if Admits(s.group) then s.(group := Admit(s.group), actors := s.actors + [a]) else s
  }

  /** `DoneSession`, broadcasting when the last session ends. */
  function Done(s: State): State {
    if s.group.sessions == 0 then s.(panicked := true)
    else
      var left := s.group.sessions - 1;
      s.(group := s.group.(sessions := left), actors := if left == 0 then WakeAll(s.actors) else s.actors)
  }

  function Set(s: State, i: nat, a: Actor): State
    requires i < |s.actors|
  {
    s.(actors := s.actors[i := a])
  }

  predicate Enabled(s: State, step: Step) {
    match step
    case StartLoop => true
    case LoopStops(i) => i < |s.actors| && s.actors[i] == DequeueLoop(Owning) && s.group.isClosed
    case LoopHandsOver(i) => i < |s.actors| && s.actors[i] == DequeueLoop(Owning)
    case LoopRenews(i) => i < |s.actors| && s.actors[i] == DequeueLoop(HandedOver)
    case AsyncRunEnds(i) => i < |s.actors| && s.actors[i] == AsyncRun(true)
    case StartSubmit => true
    case SubmitEnds(i) => i < |s.actors| && s.actors[i] == Submit(true)
    case SubmitSchedules(i) => i < |s.actors| && s.actors[i] == Submit(true)
    case CallEndRuns(i) => i < |s.actors| && s.actors[i] == CallEnd(Counted)
    case CallEndEnds(i) => i < |s.actors| && s.actors[i] == CallEnd(Uncounted)
    case Launch => true
    case ContainerEnds(i) => i < |s.actors| && s.actors[i] == HotContainer(true)
    case StartClose => true
    case CloserLooks(i) => i < |s.actors| && (s.actors[i] == Closer(Entering) || s.actors[i] == Closer(Woken))
    case CloserFinishes(i) => i < |s.actors| && s.actors[i] == Closer(Through)
  }

  function Apply(s: State, step: Step): State
    requires Enabled(s, step)
  {
    match step
    case StartLoop => Start(s, DequeueLoop(Owning))
    case LoopStops(i) => Done(Set(s, i, DequeueLoop(LoopEnded)))
    case LoopHandsOver(i) =>
      var t := Set(s, i, DequeueLoop(HandedOver));
      t.(actors := t.actors + [AsyncRun(true)])
    case LoopRenews(i) =>
      Set(s, i, DequeueLoop(if Admits(s.group) then Owning else LoopEnded)).(group := Admit(s.group))
    case AsyncRunEnds(i) => Done(Set(s, i, AsyncRun(false)))
    case StartSubmit => Start(s, Submit(true))
    case SubmitEnds(i) => Done(Set(s, i, Submit(false)))
    case SubmitSchedules(i) =>
      var t := Set(s, i, Submit(false));
      t.(callEndCount := s.callEndCount + 1, actors := t.actors + [CallEnd(Counted)])
    case CallEndRuns(i) => Set(s, i, CallEnd(Uncounted)).(callEndCount := s.callEndCount - 1)
    case CallEndEnds(i) => Done(Set(s, i, CallEnd(EndEnded)))
    case Launch => Start(s, HotContainer(true))
    case ContainerEnds(i) => Done(Set(s, i, HotContainer(false)))
    case StartClose => s.(actors := s.actors + [Closer(Entering)])
    case CloserLooks(i) =>
      Set(s, i, Closer(if s.group.sessions != 0 then Asleep else Through)).(group := s.group.(isClosed := true))
    case CloserFinishes(i) =>
      // shutonce: only the first one closes the driver
      Set(s, i, Closer(Finished)).(driverCloses := if s.driverCloses == 0 then 1 else s.driverCloses)
  }

  // ---------------------------------------------------------------------- invariant

  predicate ActorInv(s: State, a: Actor) {
    a.Closer? ==>
      && (a.closer.Asleep? ==> s.group.isClosed && s.group.sessions != 0)
      && (a.closer.Woken? ==> s.group.isClosed)
      && (a.closer.Through? || a.closer.Finished? ==> s.group.isClosed && s.group.sessions == 0)
  }

  ghost predicate Inv(s: State) {
    && s.group.sessions == Sum(s.actors, HoldsOne)
    && s.callEndCount == Sum(s.actors, CountedOne)
    && !s.panicked
    && (forall i :: 0 <= i < |s.actors| ==> ActorInv(s, s.actors[i]))
    && (s.driverCloses > 0 ==> s.driverCloses == 1 && s.group.isClosed && s.group.sessions == 0)
  }

  lemma Replace(s: State, i: nat, a: Actor)
    requires i < |s.actors|
    ensures Sum(s.actors[i := a], HoldsOne) == Sum(s.actors, HoldsOne) - HoldsOne(s.actors[i]) + HoldsOne(a)
    ensures Sum(s.actors[i := a], CountedOne) == Sum(s.actors, CountedOne) - CountedOne(s.actors[i]) + CountedOne(a)
  {
    SumUpdate(s.actors, i, a, HoldsOne);
    SumUpdate(s.actors, i, a, CountedOne);
  }

  lemma Append(actors: seq<Actor>, a: Actor)
    ensures Sum(actors + [a], HoldsOne) == Sum(actors, HoldsOne) + HoldsOne(a)
    ensures Sum(actors + [a], CountedOne) == Sum(actors, CountedOne) + CountedOne(a)
  {
    SumAppend(actors, a, HoldsOne);
    SumAppend(actors, a, CountedOne);
  }

  /** The end of a holder: its session is there to be ended, and if it was the last
      one no closer stays asleep. */
  lemma HolderEnds(s: State, i: nat, a: Actor)
    requires Inv(s) && i < |s.actors| && Holds(s.actors[i]) && !Holds(a) && !a.Closer?
    requires CountedOne(a) == CountedOne(s.actors[i])
    ensures Inv(Done(Set(s, i, a)))
  {
    hide Sum;
    SumBounds(s.actors, HoldsOne);
    assert HoldsOne(s.actors[i]) == 1;
    Replace(s, i, a);
    var t := Set(s, i, a);
    if s.group.sessions == 1 {
      SumSame(WakeAll(t.actors), t.actors, HoldsOne);
      SumSame(WakeAll(t.actors), t.actors, CountedOne);
    }
  }

  lemma StartKeepsInv(s: State, a: Actor)
    requires Inv(s) && Holds(a) && CountedOne(a) == 0
    ensures Inv(Start(s, a))
  {
    Append(s.actors, a);
  }

  /** A session changes hands: the giver stops holding, a new goroutine starts. */
  lemma HandOverKeepsInv(s: State, i: nat, giver: Actor, taker: Actor)
    requires Inv(s) && i < |s.actors| && Holds(s.actors[i]) && !Holds(giver) && Holds(taker)
    requires !giver.Closer? && CountedOne(giver) == 0 && CountedOne(s.actors[i]) == 0
    ensures Inv(Set(s, i, giver).(actors := Set(s, i, giver).actors + [taker],
                                  callEndCount := s.callEndCount + CountedOne(taker)))
  {
    Replace(s, i, giver);
    Append(Set(s, i, giver).actors, taker);
  }

  lemma StartCloseKeepsInv(s: State)
    requires Inv(s) && Enabled(s, StartClose)
    ensures Inv(Apply(s, StartClose))
  {
    Append(s.actors, Closer(Entering));
  }

  lemma CloserKeepsInv(s: State, step: Step)
    requires Inv(s) && Enabled(s, step)
    requires step.CloserLooks? || step.CloserFinishes?
    ensures Inv(Apply(s, step))
  {
    hide Sum;
    match step
    case CloserLooks(i) => Replace(s, i, Closer(if s.group.sessions != 0 then Asleep else Through));
    case CloserFinishes(i) => Replace(s, i, Closer(Finished));
  }

  lemma StepKeepsInv(s: State, step: Step)
    requires Inv(s) && Enabled(s, step)
    ensures Inv(Apply(s, step))
  {
    match step
    case StartLoop => StartKeepsInv(s, DequeueLoop(Owning));
    case StartSubmit => StartKeepsInv(s, Submit(true));
    case Launch => StartKeepsInv(s, HotContainer(true));
    case LoopStops(i) => HolderEnds(s, i, DequeueLoop(LoopEnded));
    case AsyncRunEnds(i) => HolderEnds(s, i, AsyncRun(false));
    case SubmitEnds(i) => HolderEnds(s, i, Submit(false));
    case CallEndEnds(i) => HolderEnds(s, i, CallEnd(EndEnded));
    case ContainerEnds(i) => HolderEnds(s, i, HotContainer(false));
    case LoopHandsOver(i) => HandOverKeepsInv(s, i, DequeueLoop(HandedOver), AsyncRun(true));
    case SubmitSchedules(i) => HandOverKeepsInv(s, i, Submit(false), CallEnd(Counted));
    case CallEndRuns(i) => Replace(s, i, CallEnd(Uncounted));
    case LoopRenews(i) => Replace(s, i, DequeueLoop(if Admits(s.group) then Owning else LoopEnded));
    case StartClose => StartCloseKeepsInv(s);
    case _ => CloserKeepsInv(s, step);
  }

  // --------------------------------------------------------------------------- runs

  ghost predicate IsRun(run: seq<State>, steps: seq<Step>) {
    && |run| == |steps| + 1
    && run[0] == State(Group(false, 0), false, 0, 0, [])
    && forall i :: 0 <= i < |steps| ==> Enabled(run[i], steps[i]) && run[i + 1] == Apply(run[i], steps[i])
  }

  lemma {:induction false} RunKeepsInv(run: seq<State>, steps: seq<Step>, n: nat)
    requires IsRun(run, steps) && n < |run|
    ensures Inv(run[n])
  {
    if n > 0 {
      RunKeepsInv(run, steps, n - 1);
      StepKeepsInv(run[n - 1], steps[n - 1]);
    }
  }

  /** The session count is the number of live holders, the stacking counter the
      number of call ends still running; `DoneSession` never panics and no closer
      sleeps while the count is zero. */
  lemma SessionsMatchHolders(run: seq<State>, steps: seq<Step>, n: nat)
    requires IsRun(run, steps) && n < |run|
    ensures run[n].group.sessions == Sum(run[n].actors, HoldsOne)
    ensures run[n].callEndCount == Sum(run[n].actors, CountedOne)
    ensures !run[n].panicked
    ensures run[n].group.sessions == 0 ==> forall i :: 0 <= i < |run[n].actors| ==> run[n].actors[i] != Closer(Asleep)
  {
    RunKeepsInv(run, steps, n);
    forall i | 0 <= i < |run[n].actors| ensures ActorInv(run[n], run[n].actors[i]) {}
  }

  /** No session starts after closing: the group stays closed and only drains. */
  lemma {:induction false} ClosedOnlyDrains(run: seq<State>, steps: seq<Step>, n: nat, m: nat)
    requires IsRun(run, steps) && n <= m < |run| && run[n].group.isClosed
    ensures run[m].group.isClosed && run[m].group.sessions <= run[n].group.sessions
  {
    if m > n {
      ClosedOnlyDrains(run, steps, n, m - 1);
      assert Enabled(run[m - 1], steps[m - 1]) && run[m] == Apply(run[m - 1], steps[m - 1]);
    }
  }

  /** `Close` closes the driver once, only after everything has drained, and nothing
      that holds a session ever runs again. */
  lemma {:induction false} DriverOutlivesHolders(run: seq<State>, steps: seq<Step>, n: nat, m: nat, i: nat)
    requires IsRun(run, steps) && n <= m < |run| && run[n].driverCloses > 0 && i < |run[m].actors|
    ensures run[n].driverCloses == 1
    ensures !Holds(run[m].actors[i]) && run[m].callEndCount == 0
  {
    RunKeepsInv(run, steps, n);
    ClosedOnlyDrains(run, steps, n, m);
    RunKeepsInv(run, steps, m);
    SumBounds(run[m].actors, HoldsOne);
    assert HoldsOne(run[m].actors[i]) <= 0;
    forall j | 0 <= j < |run[m].actors| ensures CountedOne(run[m].actors[j]) == 0 {
      assert HoldsOne(run[m].actors[j]) <= 0;
    }
    SumZero(run[m].actors, CountedOne);
  }

  predicate SomeoneFinished(s: State) { exists i :: 0 <= i < |s.actors| && s.actors[i] == Closer(Finished) }

  lemma FinishedStays(s: State, step: Step)
    requires Enabled(s, step)
    ensures SomeoneFinished(s) ==> SomeoneFinished(Apply(s, step))
    ensures step.CloserFinishes? ==> SomeoneFinished(Apply(s, step))
  {
    var s' := Apply(s, step);
    if SomeoneFinished(s) {
      var i :| 0 <= i < |s.actors| && s.actors[i] == Closer(Finished);
      assert s'.actors[i] == Closer(Finished);
    }
    if step.CloserFinishes? { assert s'.actors[step.i] == Closer(Finished); }
  }

  lemma FinishedIsNew(s: State, step: Step)
    requires Enabled(s, step) && !step.CloserFinishes?
    ensures SomeoneFinished(Apply(s, step)) ==> SomeoneFinished(s)
  {
    var s' := Apply(s, step);
    if SomeoneFinished(s') {
      var i :| 0 <= i < |s'.actors| && s'.actors[i] == Closer(Finished);
      assert i < |s.actors| && s.actors[i] == Closer(Finished);
    }
  }

  lemma FinishedMoves(s: State, step: Step)
    requires Enabled(s, step) && (SomeoneFinished(s) <==> s.driverCloses == 1) && s.driverCloses <= 1
    ensures var s' := Apply(s, step); (SomeoneFinished(s') <==> s'.driverCloses == 1) && s'.driverCloses <= 1
  {
    FinishedStays(s, step);
    if !step.CloserFinishes? { FinishedIsNew(s, step); }
    hide SomeoneFinished, WakeAll;
  }

  /** `Close` has come through for somebody if and only if the driver is closed. */
  lemma {:induction false} FinishedIffDriverClosed(run: seq<State>, steps: seq<Step>, n: nat)
    requires IsRun(run, steps) && n < |run|
    ensures SomeoneFinished(run[n]) <==> run[n].driverCloses == 1
    ensures run[n].driverCloses <= 1
  {
    if n > 0 {
      FinishedIffDriverClosed(run, steps, n - 1);
      assert Enabled(run[n - 1], steps[n - 1]) && run[n] == Apply(run[n - 1], steps[n - 1]);
      FinishedMoves(run[n - 1], steps[n - 1]);
    }
  }
}
