/** What the steps of an agent's sessions achieve: every holder gives its session back, and closing
    comes through once the last one has. */
module SessionLife {
  import opened Words
  import opened Sessions
  import opened Scripts

  function Next(s: State, step: Step): Option<State> { if Enabled(s, step) then Some(Apply(s, step)) else None }

  /** One session more, held by a new goroutine. */
  function With(s: State, a: Actor): State {
    s.(group := s.group.(sessions := s.group.sessions + 1), actors := s.actors + [a])
  }

  /** While the group admits it, a new goroutine gets its session; after closing nothing happens. */
  lemma HolderStarts(s: State)
    ensures Admits(s.group) ==>
      && Next(s, StartLoop) == Some(With(s, DequeueLoop(Owning)))
      && Next(s, StartSubmit) == Some(With(s, Submit(true)))
      && Next(s, Launch) == Some(With(s, HotContainer(true)))
    ensures s.group.isClosed ==>
      Next(s, StartLoop) == Some(s) && Next(s, StartSubmit) == Some(s) && Next(s, Launch) == Some(s)
  {
  }

  /** The step that ends a holder, and what is left of it. */
  function EndOf(i: nat, a: Actor): Step
    requires Holds(a) && !(a.CallEnd? && a.end.Counted?)
  {
    match a
    case DequeueLoop(_) => LoopStops(i)
    case AsyncRun(_) => AsyncRunEnds(i)
    case Submit(_) => SubmitEnds(i)
    case CallEnd(_) => CallEndEnds(i)
    case HotContainer(_) => ContainerEnds(i)
  }

  function Ended(a: Actor): Actor {
    match a
    case DequeueLoop(_) => DequeueLoop(LoopEnded)
    case AsyncRun(_) => AsyncRun(false)
    case Submit(_) => Submit(false)
    case CallEnd(_) => CallEnd(EndEnded)
    case HotContainer(_) => HotContainer(false)
    case Closer(pc) => Closer(pc)
  }

  /** Every holder can end (the dequeue loop once the group is closed): its session goes, and if it was the last,
      every sleeping closer is woken. */
  lemma HolderEndsItself(s: State, i: nat)
    requires s.group.sessions > 0 && i < |s.actors| && Holds(s.actors[i])
    requires !(s.actors[i].CallEnd? && s.actors[i].end.Counted?) && (s.actors[i].DequeueLoop? ==> s.group.isClosed)
    ensures var s' := Next(s, EndOf(i, s.actors[i]));
      && s'.Some? && s'.value.group == s.group.(sessions := s.group.sessions - 1)
      && s'.value.panicked == s.panicked && s'.value.callEndCount == s.callEndCount && |s'.value.actors| == |s.actors|
      && s'.value.actors[i] == Ended(s.actors[i])
      && forall j :: 0 <= j < |s.actors| && j != i ==>
           s'.value.actors[j] ==
             if s.group.sessions == 1 && s.actors[j] == Closer(Asleep) then Closer(Woken) else s.actors[j]
  {
  }

  /** Ending a session that is not there panics. */
  lemma EndingWithoutSessionPanics(s: State, i: nat)
    requires s.group.sessions == 0 && i < |s.actors| && Holds(s.actors[i])
    requires !(s.actors[i].CallEnd? && s.actors[i].end.Counted?) && (s.actors[i].DequeueLoop? ==> s.group.isClosed)
    ensures Next(s, EndOf(i, s.actors[i])).Some? && Next(s, EndOf(i, s.actors[i])).value.panicked
  {
  }

  /** A scheduled call end takes over the session of its submit, is counted while it runs, and gives it back. */
  lemma CallEndRunsThrough(s: State) returns (script: seq<Step>, s': State)
    requires Admits(s.group) && s.group.sessions > 0
    ensures var i := |s.actors|;
      && script == [StartSubmit, SubmitSchedules(i), CallEndRuns(i + 1), CallEndEnds(i + 1)]
      && Runs(Next, s, script, s')
      && s' == s.(actors := s.actors + [Submit(false), CallEnd(EndEnded)])
  {
    var i := |s.actors|;
    Begin(Next, s);
    hide Execute, Runs, WakeAll;
    script, s' := Then(Next, s, [], s, StartSubmit);
    script, s' := Then(Next, s, script, s', SubmitSchedules(i));
    assert s'.callEndCount == s.callEndCount + 1;
    script, s' := Then(Next, s, script, s', CallEndRuns(i + 1));
    script, s' := Then(Next, s, script, s', CallEndEnds(i + 1));
    assert s'.actors == s.actors + [Submit(false), CallEnd(EndEnded)];
  }

  /** The dequeue loop hands its session to the run of a call and asks for another one: it gets it while
      the group is open, and ends otherwise. */
  lemma LoopHandsOn(s: State, i: nat) returns (script: seq<Step>, s': State)
    requires i < |s.actors| && s.actors[i] == DequeueLoop(Owning)
    ensures script == [LoopHandsOver(i), LoopRenews(i)] && Runs(Next, s, script, s')
    ensures s'.actors == s.actors[i := DequeueLoop(if Admits(s.group) then Owning else LoopEnded)] + [AsyncRun(true)]
    ensures s'.group == s.group.(sessions := if Admits(s.group) then s.group.sessions + 1 else s.group.sessions)
  {
    Begin(Next, s);
    hide Execute, Runs;
    script, s' := Then(Next, s, [], s, LoopHandsOver(i));
    script, s' := Then(Next, s, script, s', LoopRenews(i));
  }

  /** Closing an agent without sessions comes through at once and closes the driver. */
  lemma CloseComesThrough(s: State) returns (script: seq<Step>, s': State)
    requires s.group.sessions == 0
    ensures var i := |s.actors|;
      && script == [StartClose, CloserLooks(i), CloserFinishes(i)] && Runs(Next, s, script, s')
      && s' == s.(group := s.group.(isClosed := true), actors := s.actors + [Closer(Finished)],
                  driverCloses := if s.driverCloses == 0 then 1 else s.driverCloses)
  {
    var i := |s.actors|;
    Begin(Next, s);
    hide Execute, Runs;
    script, s' := Then(Next, s, [], s, StartClose);
    script, s' := Then(Next, s, script, s', CloserLooks(i));
    script, s' := Then(Next, s, script, s', CloserFinishes(i));
  }

  /** Closing an agent with sessions closes the group at once and sleeps. */
  lemma CloseWaits(s: State) returns (script: seq<Step>, s': State)
    requires s.group.sessions > 0
    ensures script == [StartClose, CloserLooks(|s.actors|)] && Runs(Next, s, script, s')
    ensures s' == s.(group := s.group.(isClosed := true), actors := s.actors + [Closer(Asleep)])
  {
    Begin(Next, s);
    hide Execute, Runs;
    script, s' := Then(Next, s, [], s, StartClose);
    script, s' := Then(Next, s, script, s', CloserLooks(|s.actors|));
  }

  /** When the last holder ends, a sleeping closer gets through and closes the driver. */
  lemma LastHolderLetsCloserThrough(s: State, i: nat, j: nat) returns (script: seq<Step>, s': State)
    requires s.group == Group(true, 1) && i < |s.actors| && j < |s.actors| && s.actors[j] == Closer(Asleep)
    requires Holds(s.actors[i]) && !(s.actors[i].CallEnd? && s.actors[i].end.Counted?) && s.driverCloses == 0
    ensures script == [EndOf(i, s.actors[i]), CloserLooks(j), CloserFinishes(j)] && Runs(Next, s, script, s')
    ensures s'.group == Group(true, 0) && s'.driverCloses == 1 && !s'.panicked == !s.panicked
    ensures |s'.actors| == |s.actors| && s'.actors[j] == Closer(Finished) && s'.actors[i] == Ended(s.actors[i])
  {
    Begin(Next, s);
    HolderEndsItself(s, i);
    hide Execute, Runs, WakeAll, Done;
    script, s' := Then(Next, s, [], s, EndOf(i, s.actors[i]));
    var s1 := s';
    assert s1.actors[j] == Closer(Woken) && s1.driverCloses == 0 by { KeepsDriver(s, i); }
    script, s' := Then(Next, s, script, s', CloserLooks(j));
    script, s' := Then(Next, s, script, s', CloserFinishes(j));
  }

  lemma KeepsDriver(s: State, i: nat)
    requires s.group.sessions > 0 && i < |s.actors| && Holds(s.actors[i])
    requires !(s.actors[i].CallEnd? && s.actors[i].end.Counted?) && (s.actors[i].DequeueLoop? ==> s.group.isClosed)
    ensures Next(s, EndOf(i, s.actors[i])).Some? && Next(s, EndOf(i, s.actors[i])).value.driverCloses == s.driverCloses
  {
  }
}
