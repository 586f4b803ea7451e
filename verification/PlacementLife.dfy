/** How a call is placed: a runner with room accepts it, submits it and gives its capacity back; one
    without room refuses it and the call is offered again. */
module PlacementLife {
  import opened Words
  import opened Placement
  import opened Scripts
  import E = Engagement

  function Next(s: State, step: Step): Option<State> { if Enabled(s, step) then Some(Apply(s, step)) else None }

  function Moves(a: nat, es: E.Step): Step { RunnerMoves(a, es) }

  /** An engagement without anything going on: where the body is, what was said, and what is held. */
  function Quiet(main: E.MainPc, wire: seq<E.RunnerMsg>, accepted: bool, units: nat): E.State {
    E.INITIAL.(ctl := E.INITIAL.ctl.(main := main), wire := wire, accepted := accepted, reserved := units)
  }

  /** The call is offered: the try reaches the runner. */
  lemma CallIsOffered(s: State, c: nat, r: nat) returns (script: seq<Step>, s': State)
    requires c < |s.calls| && s.calls[c].pc.Choosing? && r < |s.runners| && s.runners[r].committed >= 0
    ensures var a := |s.attempts|;
      && script == [Attempting(c, r), Client(a, SendTry(true, true)), Moves(a, E.Env(E.Receive(E.Try))),
                    Moves(a, E.Body(E.MainTakes))]
      && Runs(Next, s, script, s')
      && s' == s.(calls := s.calls[c := Placer(Trying, a)],
                  attempts := s.attempts + [Attempt(c, r, AwaitAck, false, [], Quiet(E.HandleTry, [], false, 0))])
  {
    var a := |s.attempts|;
    Begin(Next, s);
    hide Execute, Runs, E.Shutdown, E.WakeAll;
    script, s' := Then(Next, s, [], s, Attempting(c, r));
    script, s' := Then(Next, s, script, s', Client(a, SendTry(true, true)));
    script, s' := Then(Next, s, script, s', Moves(a, E.Env(E.Receive(E.Try))));
    script, s' := Then(Next, s, script, s', Moves(a, E.Body(E.MainTakes)));
  }

  /** Attempt `a` of call `c` on runner `r` is as `t` says. */
  predicate At(s: State, c: nat, r: nat, a: nat, t: Attempt) {
    && c < |s.calls| && s.calls[c] == Placer(Trying, a) && a < |s.attempts| && s.attempts[a] == t
    && r < |s.runners| && t.call == c && t.runner == r
  }

  /** What the body offers gets through to the client. */
  function Through(a: nat): seq<Step> {
    [Moves(a, E.Queue(E.EnqueueParks(E.Main))), Moves(a, E.Queue(E.Meet(E.Main))),
     Moves(a, E.Queue(E.SenderSends(true)))]
  }

  /** Without room the runner refuses: no capacity is taken, and the call can be offered again. */
  lemma CallIsRefused(s: State, c: nat, r: nat, a: nat, units: nat) returns (script: seq<Step>, s': State)
    requires At(s, c, r, a, Attempt(c, r, AwaitAck, false, [], Quiet(E.HandleTry, [], false, 0)))
    requires s.runners[r].total - s.runners[r].committed < units
    ensures script == [Moves(a, E.Body(E.Answer(E.CapacityFull, units)))] + Through(a)
                      + [Client(a, RecvFirst), Collect(c)]
    ensures Runs(Next, s, script, s')
    ensures s' == s.(calls := s.calls[c := Placer(Choosing, a)],
                     attempts := s.attempts[a := Attempt(c, r, Returned(false), false, [],
                                                         Quiet(E.EnqNackEnd, [E.Nack], false, 0))])
  {
    Begin(Next, s);
    hide Execute, Runs, E.Shutdown, E.WakeAll;
    script, s' := Then(Next, s, [], s, Moves(a, E.Body(E.Answer(E.CapacityFull, units))));
    script, s' := Then(Next, s, script, s', Moves(a, E.Queue(E.EnqueueParks(E.Main))));
    script, s' := Then(Next, s, script, s', Moves(a, E.Queue(E.Meet(E.Main))));
    script, s' := Then(Next, s, script, s', Moves(a, E.Queue(E.SenderSends(true))));
    assert s'.attempts[a].eng.wire == [] + [E.Nack] == [E.Nack];
    script, s' := Then(Next, s, script, s', Client(a, RecvFirst));
    script, s' := Then(Next, s, script, s', Collect(c));
  }

  /** With room the runner accepts: the units are committed, and the client starts to send data. */
  lemma CallIsAccepted(s: State, c: nat, r: nat, a: nat, units: nat) returns (script: seq<Step>, s': State)
    requires At(s, c, r, a, Attempt(c, r, AwaitAck, false, [], Quiet(E.HandleTry, [], false, 0)))
    requires s.runners[r].total - s.runners[r].committed >= units
    ensures script == [Moves(a, E.Body(E.Answer(E.Accepted, units)))] + Through(a) + [Client(a, RecvFirst)]
    ensures Runs(Next, s, script, s')
    ensures s' == s.(runners := s.runners[r := Runner(s.runners[r].total, s.runners[r].committed + units)],
                     attempts := s.attempts[a := Attempt(c, r, SendingData, false, [],
                                                         Quiet(E.AwaitData, [E.Ack], true, units))])
  {
    Begin(Next, s);
    hide Execute, Runs, E.Shutdown, E.WakeAll;
    script, s' := Then(Next, s, [], s, Moves(a, E.Body(E.Answer(E.Accepted, units))));
    script, s' := Then(Next, s, script, s', Moves(a, E.Queue(E.EnqueueParks(E.Main))));
    script, s' := Then(Next, s, script, s', Moves(a, E.Queue(E.Meet(E.Main))));
    script, s' := Then(Next, s, script, s', Moves(a, E.Queue(E.SenderSends(true))));
    assert s'.attempts[a].eng.wire == [] + [E.Ack] == [E.Ack];
    script, s' := Then(Next, s, script, s', Client(a, RecvFirst));
  }

  function Submitting(units: nat): E.State {
    Quiet(E.AwaitEnd, [E.Ack], true, units).(
      gotData := true, submits := 1, ctl := Quiet(E.AwaitEnd, [E.Ack], true, units).ctl.(submit := E.Running))
  }

  /** The data reaches the runner, which submits the call. */
  lemma CallIsSubmitted(s: State, c: nat, r: nat, a: nat, units: nat) returns (script: seq<Step>, s': State)
    requires At(s, c, r, a, Attempt(c, r, SendingData, false, [], Quiet(E.AwaitData, [E.Ack], true, units)))
    requires s.runners[r].committed >= 0
    ensures script == [Client(a, SendData(true, true, true)), Moves(a, E.Env(E.Receive(E.Data(true)))),
                       Moves(a, E.Body(E.MainTakes)), Moves(a, E.Body(E.FeedPipe))]
    ensures Runs(Next, s, script, s')
    ensures s' == s.(attempts := s.attempts[a := Attempt(c, r, AwaitFinish, true, [], Submitting(units))])
  {
    Begin(Next, s);
    hide Execute, Runs, E.Shutdown, E.WakeAll;
    script, s' := Then(Next, s, [], s, Client(a, SendData(true, true, true)));
    script, s' := Then(Next, s, script, s', Moves(a, E.Env(E.Receive(E.Data(true)))));
    script, s' := Then(Next, s, script, s', Moves(a, E.Body(E.MainTakes)));
    script, s' := Then(Next, s, script, s', Moves(a, E.Body(E.FeedPipe)));
  }

  function Over(units: nat): E.State {
    var e := Submitting(units);
    e.(wire := [E.Ack, E.Finished(false)], ctl := e.ctl.(done := true, sender := E.SExit, submit := E.Ended))
  }

  /** A failed submit is reported, and the session ends. */
  lemma FailureIsReported(s: State, c: nat, r: nat, a: nat, units: nat) returns (script: seq<Step>, s': State)
    requires At(s, c, r, a, Attempt(c, r, AwaitFinish, true, [], Submitting(units))) && s.runners[r].committed >= 0
    ensures |script| == 7 && script[0] == Moves(a, E.Agent(E.SubmitReturns(true))) && Runs(Next, s, script, s')
    ensures s' == s.(attempts := s.attempts[a := Attempt(c, r, AwaitFinish, true, [], Over(units))])
  {
    Begin(Next, s);
    hide Execute, Runs;
    script, s' := Then(Next, s, [], s, Moves(a, E.Agent(E.SubmitReturns(true))));
    script, s' := Then(Next, s, script, s', Moves(a, E.Queue(E.EnqueueParks(E.Submit))));
    script, s' := Then(Next, s, script, s', Moves(a, E.Queue(E.Meet(E.Submit))));
    script, s' := Then(Next, s, script, s', Moves(a, E.Queue(E.SenderSends(true))));
    assert s'.attempts[a].eng.wire == [E.Ack] + [E.Finished(false)] == [E.Ack, E.Finished(false)];
    script, s' := Then(Next, s, script, s', Moves(a, E.Queue(E.EnqueueParks(E.Submit))));
    script, s' := Then(Next, s, script, s', Moves(a, E.Queue(E.Meet(E.Submit))));
    script, s' := Then(Next, s, script, s', Moves(a, E.Queue(E.SenderSends(true))));
  }

  /** At the end the capacity is given back, and the call is done. */
  lemma CallIsDone(s: State, c: nat, r: nat, a: nat, units: nat) returns (script: seq<Step>, s': State)
    requires At(s, c, r, a, Attempt(c, r, AwaitFinish, true, [], Over(units))) && s.runners[r].committed >= units
    ensures script == [Moves(a, E.Body(E.MainReturns)), Client(a, Finish), Collect(c)] && Runs(Next, s, script, s')
    ensures s'.calls == s.calls[c := Placer(Finished, a)]
    ensures s'.runners == s.runners[r := Runner(s.runners[r].total, s.runners[r].committed - units)]
    ensures |s'.attempts| == |s.attempts| && s'.attempts[a].client == Returned(true)
  {
    Begin(Next, s);
    hide Execute, Runs, E.Shutdown, E.WakeAll;
    script, s' := Then(Next, s, [], s, Moves(a, E.Body(E.MainReturns)));
    script, s' := Then(Next, s, script, s', Client(a, Finish));
    script, s' := Then(Next, s, script, s', Collect(c));
  }

  /** New runners start with nothing committed, new calls are free to choose, and a call can be given up
      between attempts. */
  lemma ComingAndGoing(s: State, units: nat, c: nat)
    ensures Next(s, AddRunner(units)) == Some(s.(runners := s.runners + [Runner(units, 0)]))
    ensures Next(s, AddCall) == Some(s.(calls := s.calls + [Placer(Choosing, -1)]))
    ensures c < |s.calls| && s.calls[c].pc.Choosing? ==>
      Next(s, GiveUp(c)) == Some(s.(calls := s.calls[c := s.calls[c].(pc := Finished)]))
  {
  }

  /** What is lost on the way is a tail of what is under way. */
  lemma LossIsATail(s: State, a: nat, kept: nat)
    requires Enabled(s, Lose(a, kept))
    ensures var s' := Apply(s, Lose(a, kept));
      && s'.attempts[a].toRunner <= s.attempts[a].toRunner && |s'.attempts[a].toRunner| == kept
      && s' == s.(attempts := s.attempts[a := s.attempts[a].(toRunner := s'.attempts[a].toRunner)])
  {
  }

  /** Before the runner has answered, an attempt can fail: for good where no runner could run the call,
      and for this runner only where the engagement, the try or the answer does not get through. */
  lemma AttemptCanFail(s: State, a: nat)
    requires a < |s.attempts|
    ensures var t := s.attempts[a];
      && (t.client.Engaging? ==>
            && Next(s, Client(a, FailsLocally)) == Some(s.(attempts := s.attempts[a := t.(client := Returned(true))]))
            && Next(s, Client(a, EngageFails)) == Some(s.(attempts := s.attempts[a := t.(client := Returned(false))])))
      && (t.client.AwaitAck? ==>
            Next(s, Client(a, RecvFails)) == Some(s.(attempts := s.attempts[a := t.(client := Returned(false))])))
  {
  }

  predicate FailsForRunner(cs: ClientStep) { cs.EngageFails? || cs.RecvFails? || (cs.SendTry? && !cs.ok) }

  /** An attempt that failed for its runner is "not placed" for good. */
  lemma FailedAttemptIsNotPlaced(run: seq<State>, steps: seq<Step>, n: nat, m: nat, a: nat)
    requires IsRun(run, steps) && n < m < |run|
    requires steps[n].Client? && steps[n].a == a && FailsForRunner(steps[n].cs)
    ensures a < |run[m].attempts| && run[m].attempts[a].client == Returned(false)
  {
    assert Enabled(run[n], steps[n]) && run[n + 1] == Apply(run[n], steps[n]);
    AnswerIsStable(run, steps, n + 1, m, a);
  }

  /** Data goes on exactly until the last frame, or until a frame cannot be sent. */
  lemma MoreDataFollows(s: State, a: nat, eof: bool, ok: bool, delivered: bool)
    requires a < |s.attempts| && s.attempts[a].client.SendingData?
    ensures var s' := Next(s, Client(a, SendData(eof, ok, delivered)));
      && s'.Some? && |s'.value.attempts| == |s.attempts| && s'.value.attempts[a].dataSent
      && (s'.value.attempts[a].client.SendingData? <==> !eof && ok)
      && (!s'.value.attempts[a].client.SendingData? ==> s'.value.attempts[a].client.AwaitFinish?)
  {
  }

  /** A runner that handles a try refuses for lack of room exactly if the units do not fit, accepts or fails
      behind the gate only if they do, and can always find the model bad. */
  lemma RunnerAnswersByRoom(s: State, a: nat, units: nat)
    requires a < |s.attempts| && s.attempts[a].runner < |s.runners| && s.attempts[a].eng.ctl.main.HandleTry?
    ensures var r := s.runners[s.attempts[a].runner];
      && (Enabled(s, Moves(a, E.Body(E.Answer(E.CapacityFull, units)))) <==> r.committed + units > r.total)
      && (Enabled(s, Moves(a, E.Body(E.Answer(E.Accepted, units)))) <==> r.committed + units <= r.total)
      && (Enabled(s, Moves(a, E.Body(E.Answer(E.NoCall, units)))) <==> r.committed + units <= r.total)
      && Enabled(s, Moves(a, E.Body(E.Answer(E.BadModel, units))))
  {
  }
}
