/** What the steps of the hot slot queue achieve: scripts of steps that are enabled in every state
    they start from, with their whole effect. */
module HotSlotLife {
  import opened Words
  import opened HotSlots
  import opened Scripts

  function Next(s: State, step: Step): Option<State> { if Enabled(s, step) then Some(Apply(s, step)) else None }

  // ---------------------------------------------------------------------- a call is served

  /** The call `k` waits, its dequeuer is about to look, and `t`, offered by container `c`, was queued last. */
  ghost predicate Meeting(s: State, c: nat, k: nat, t: nat) {
    && Inv(s) && c < |s.containers| && k < |s.callers| && t < |s.tokens|
    && s.containers[c].pc == Polling(t) && s.tokens[t].owner.Nobody? && s.tokens[t].container == c
    && s.callers[k].pc.Waiting? && s.callers[k].dq.Look? && !s.callers[k].ctxDone
    && |s.slots| > 0 && s.slots[|s.slots| - 1] == t
  }

  /** The dequeuer offers the slot, the call takes it, wins it, removes it and signals the container. */
  lemma CallTakesSlot(s: State, c: nat, k: nat, t: nat) returns (script: seq<Step>, s': State)
    requires Meeting(s, c, k, t)
    ensures script == [CallerMoves(k, DqLooks), CallerMoves(k, TakesOffer), CallerMoves(k, TriesToken),
                       CallerMoves(k, Removes), CallerMoves(k, Triggers)]
    ensures Runs(Next, s, script, s')
    ensures s' == s.(slots := Remove(s.slots, t),
                     tokens := s.tokens[t := s.tokens[t].(owner := ByCaller(k), triggers := 1)],
                     callers := s.callers[k := s.callers[k].(pc := Holding(t), dq := Look)])
  {
    assert TokenInv(s, t);
    Begin(Next, s);
    hide Execute, Runs;
    script, s' := Then(Next, s, [], s, CallerMoves(k, DqLooks));
    script, s' := Then(Next, s, script, s', CallerMoves(k, TakesOffer));
    script, s' := Then(Next, s, script, s', CallerMoves(k, TriesToken));
    script, s' := Then(Next, s, script, s', CallerMoves(k, Removes));
    script, s' := Then(Next, s, script, s', CallerMoves(k, Triggers));
  }

  /** The container learns that its slot was taken, the call runs and closes the slot, and the container
      goes back to its loop, or ends if the call failed fatally. */
  lemma CallEnds(s: State, c: nat, k: nat, t: nat, fatal: bool) returns (script: seq<Step>, s': State)
    requires Inv(s) && c < |s.containers| && k < |s.callers| && t < |s.tokens|
    requires s.containers[c].pc == Polling(t) && s.callers[k].pc == Holding(t) && !s.tokens[t].fatal
    ensures script == [ContainerMoves(c, LeavesSelect), CallerMoves(k, Executes(fatal)), CallerMoves(k, Closes),
                       ContainerMoves(c, SeesDone)]
    ensures Runs(Next, s, script, s')
    ensures s' == s.(tokens := s.tokens[t := s.tokens[t].(fatal := fatal, dones := 1)],
                     callers := s.callers[k := s.callers[k].(pc := Closed(t))],
                     containers := s.containers[c := s.containers[c].(pc := if fatal then Exited else LoopTop)])
  {
    assert TokenInv(s, t) && CallerInv(s, k);
    Begin(Next, s);
    hide Execute, Runs;
    script, s' := Then(Next, s, [], s, ContainerMoves(c, LeavesSelect));
    script, s' := Then(Next, s, script, s', CallerMoves(k, Executes(fatal)));
    script, s' := Then(Next, s, script, s', CallerMoves(k, Closes));
    script, s' := Then(Next, s, script, s', ContainerMoves(c, SeesDone));
  }

  // ----------------------------------------------------------------------------- containers

  /** A broadcast: exactly the sleeping dequeuers are woken, and nothing else changes for any call. */
  predicate AllAwake(callers: seq<Caller>, callers': seq<Caller>) {
    && |callers'| == |callers|
    && forall k :: 0 <= k < |callers| ==>
         callers'[k] == if callers[k].dq.Asleep? then callers[k].(dq := Woken) else callers[k]
  }

  /** A new container that starts comes to offer a fresh slot, last in the queue, and wakes all
      sleeping dequeuers. */
  lemma ContainerOffers(s: State) returns (script: seq<Step>, s': State)
    ensures var c, t := |s.containers|, |s.tokens|;
      && script == [NewContainer, ContainerMoves(c, Starts), ContainerMoves(c, QueuesSlot),
                    ContainerMoves(c, Broadcasts)]
      && Runs(Next, s, script, s')
      && s' == State(s.slots + [t], s.tokens + [Token(c, Nobody, 0, 0, false)],
                     s.containers + [Container(Polling(t), t)], s'.callers)
      && AllAwake(s.callers, s'.callers)
  {
    var c := |s.containers|;
    Begin(Next, s);
    hide Execute, Runs;
    script, s' := Then(Next, s, [], s, NewContainer);
    script, s' := Then(Next, s, script, s', ContainerMoves(c, Starts));
    script, s' := Then(Next, s, script, s', ContainerMoves(c, QueuesSlot));
    script, s' := Then(Next, s, script, s', ContainerMoves(c, Broadcasts));
  }

  /** A container that cannot start queues one slot that carries its error, and ends. */
  lemma ContainerFailsToStart(s: State) returns (script: seq<Step>, s': State)
    ensures var c, t := |s.containers|, |s.tokens|;
      && script == [NewContainer, ContainerMoves(c, StartFails), ContainerMoves(c, Broadcasts)]
      && Runs(Next, s, script, s')
      && s' == State(s.slots + [t], s.tokens + [Token(c, Nobody, 0, 0, true)],
                     s.containers + [Container(Exited, t)], s'.callers)
      && AllAwake(s.callers, s'.callers)
  {
    var c := |s.containers|;
    Begin(Next, s);
    hide Execute, Runs;
    script, s' := Then(Next, s, [], s, NewContainer);
    script, s' := Then(Next, s, script, s', ContainerMoves(c, StartFails));
    script, s' := Then(Next, s, script, s', ContainerMoves(c, Broadcasts));
  }

  /** A container that wants to end takes its own slot out of the queue and closes it. */
  lemma ContainerWithdraws(s: State, c: nat, t: nat) returns (script: seq<Step>, s': State)
    requires Inv(s) && c < |s.containers| && t < |s.tokens|
    requires s.containers[c].pc == Polling(t) && s.tokens[t].owner.Nobody?
    ensures script == [ContainerMoves(c, LeavesSelect), ContainerMoves(c, RemovesToken),
                       ContainerMoves(c, ClosesTrigger), ContainerMoves(c, ClosesDone)]
    ensures Runs(Next, s, script, s')
    ensures s' == s.(slots := Remove(s.slots, t),
                     tokens := s.tokens[t := s.tokens[t].(owner := ByContainer, triggers := 1, dones := 1)],
                     containers := s.containers[c := s.containers[c].(pc := KClosed(t))])
  {
    assert TokenInv(s, t);
    Begin(Next, s);
    hide Execute, Runs, Remove;
    script, s' := Then(Next, s, [], s, ContainerMoves(c, LeavesSelect));
    script, s' := Then(Next, s, script, s', ContainerMoves(c, RemovesToken));
    script, s' := Then(Next, s, script, s', ContainerMoves(c, ClosesTrigger));
    script, s' := Then(Next, s, script, s', ContainerMoves(c, ClosesDone));
  }

  /** A container can end between calls on a shutdown, when freezing fails, and when unfreezing fails
      for the call that took its slot. */
  lemma ContainerCanEnd(s: State, c: nat)
    requires c < |s.containers|
    ensures var ended, pc := s.(containers := s.containers[c := s.containers[c].(pc := Exited)]), s.containers[c].pc;
      && (pc.LoopTop? ==> Next(s, ContainerMoves(c, ShutsDown)) == Some(ended))
      && (pc.Polling? ==> Next(s, ContainerMoves(c, FreezeFails)) == Some(ended))
      && (pc.Serving? ==> Next(s, ContainerMoves(c, UnfreezeFails)) == Some(ended))
  {
  }

  predicate EndsContainer(step: Step, c: nat) {
    step.ContainerMoves? && step.c == c && (step.cs.ShutsDown? || step.cs.FreezeFails? || step.cs.UnfreezeFails?)
  }

  /** A container that shuts down, or fails to freeze or unfreeze, does nothing any more. */
  lemma {:induction false} EndedForGood(run: seq<State>, steps: seq<Step>, n: nat, m: nat, c: nat)
    requires IsRun(run, steps) && n < m < |run| && EndsContainer(steps[n], c)
    ensures c < |run[m].containers| && run[m].containers[c].pc.Exited?
    ensures forall cs :: !ContainerEnabled(run[m], c, cs)
  {
    assert Enabled(run[m - 1], steps[m - 1]) && run[m] == Apply(run[m - 1], steps[m - 1]);
    if n < m - 1 { EndedForGood(run, steps, n, m - 1, c); }
  }

  // ---------------------------------------------------------------------------------- calls

  /** A new call waits, and its dequeuer is about to look. */
  lemma NewCallWaits(s: State)
    ensures Next(s, NewCaller) == Some(s.(callers := s.callers + [Caller(Waiting, Look, false, false)]))
  {
  }

  /** The watcher of a call runs once, after the context ended, and broadcasts only if the dequeuer is waiting. */
  lemma WatcherRunsOnce(s: State, k: nat)
    requires Enabled(s, CallerMoves(k, WatcherRuns))
    ensures var s' := Apply(s, CallerMoves(k, WatcherRuns));
      && s.callers[k].ctxDone && !Enabled(s', CallerMoves(k, WatcherRuns))
      && (s.callers[k].dq.Look? || s.callers[k].dq.Offer? || s.callers[k].dq.Stopped? ==>
            s' == s.(callers := s.callers[k := s.callers[k].(watched := true)]))
  {
  }

  /** A call that finds the token taken waits again, with its dequeuer as it was. */
  lemma LoserWaitsAgain(s: State, k: nat)
    requires Enabled(s, CallerMoves(k, TriesToken)) && !s.tokens[s.callers[k].pc.t].owner.Nobody?
    ensures Apply(s, CallerMoves(k, TriesToken)) == s.(callers := s.callers[k := s.callers[k].(pc := Waiting)])
  {
  }

  /** An offer is dropped for the next look only if its token was triggered or the context ended. */
  lemma OfferIsDropped(run: seq<State>, steps: seq<Step>, n: nat, k: nat)
    requires IsRun(run, steps) && n < |steps| && steps[n] == CallerMoves(k, DqDrops)
    ensures k < |run[n].callers| && run[n].callers[k].dq.Offer? && run[n].callers[k].dq.t < |run[n].tokens|
    ensures run[n].tokens[run[n].callers[k].dq.t].triggers > 0 || run[n].callers[k].ctxDone
    ensures run[n + 1] == run[n].(callers := run[n].callers[k := run[n].callers[k].(dq := Look)])
  {
    assert Enabled(run[n], steps[n]) && run[n + 1] == Apply(run[n], steps[n]);
  }

  /** When its context ends, a sleeping dequeuer is woken and stops. */
  lemma CancelledDequeuerStops(s: State, k: nat) returns (script: seq<Step>, s': State)
    requires Inv(s) && k < |s.callers| && s.callers[k].dq.Asleep? && !s.callers[k].watched
    ensures script == [CallerMoves(k, Cancelled), CallerMoves(k, WatcherRuns), CallerMoves(k, DqLooks)]
    ensures Runs(Next, s, script, s') && |s'.callers| == |s.callers|
    ensures s'.callers[k] == s.callers[k].(ctxDone := true, watched := true, dq := Stopped)
    ensures s'.tokens == s.tokens && s'.slots == s.slots && s'.containers == s.containers
  {
    Begin(Next, s);
    hide Execute, Runs;
    script, s' := Then(Next, s, [], s, CallerMoves(k, Cancelled));
    script, s' := Then(Next, s, script, s', CallerMoves(k, WatcherRuns));
    script, s' := Then(Next, s, script, s', CallerMoves(k, DqLooks));
  }

  /** A call that gives up is out of it for good. */
  lemma {:induction false} LeftForGood(run: seq<State>, steps: seq<Step>, n: nat, m: nat, k: nat)
    requires IsRun(run, steps) && n < m < |run| && steps[n] == CallerMoves(k, GivesUp)
    ensures k < |run[m].callers| && run[m].callers[k].pc.Left?
  {
    assert Enabled(run[m - 1], steps[m - 1]) && run[m] == Apply(run[m - 1], steps[m - 1]);
    if n < m - 1 { LeftForGood(run, steps, n, m - 1, k); }
  }
}
