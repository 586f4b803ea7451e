/** What the messages of an engagement mean: every message on the wire has its cause in the run, and
    what the runner has to say can be said. */
module EngagementCauses {
  import opened Words
  import opened Engagement

  /** The step that a message reports. */
  predicate IsCause(step: Step, m: RunnerMsg) {
    match m
    case Ack => step.Body? && step.body.Answer? && step.body.outcome.Accepted?
    case Nack => step.Body? && step.body.Answer? && !step.body.outcome.Accepted?
    case ResultStart => step == Agent(AgentWrites)
    case DataFrame => step == Agent(AgentWrites)
    case EofFrame => step == Agent(SubmitReturns(false))
    case Finished(success) => step == Agent(SubmitReturns(!success))
  }

  ghost predicate Caused(steps: seq<Step>, m: RunnerMsg) {
    exists i :: 0 <= i < |steps| && IsCause(steps[i], m)
  }

  /** Everything taken, offered, or bound to be offered has its cause. */
  ghost predicate AllCaused(e: State, steps: seq<Step>) {
    && (forall i :: 0 <= i < |Taken(e)| ==> Caused(steps, Taken(e)[i]))
    && (e.ctl.main.EnqAck? ==> Caused(steps, Ack))
    && (e.ctl.main.EnqNack? ==> Caused(steps, Nack))
    && (e.ctl.submit.EnqFail? ==> Caused(steps, Finished(false)))
    && (e.ctl.submit.EnqEof? ==> Caused(steps, EofFrame))
    && (e.ctl.submit.EnqEof? || e.ctl.submit.EnqFinish? ==> Caused(steps, Finished(true)))
    && (!e.ctl.writer.NoWrite? ==> Caused(steps, ResultStart) && Caused(steps, DataFrame))
  }

  lemma CausedLater(steps: seq<Step>, step: Step, m: RunnerMsg)
    ensures Caused(steps, m) ==> Caused(steps + [step], m)
    ensures IsCause(step, m) ==> Caused(steps + [step], m)
  {
    if Caused(steps, m) {
      var i :| 0 <= i < |steps| && IsCause(steps[i], m);
      assert (steps + [step])[i] == steps[i];
    }
    assert (steps + [step])[|steps|] == step;
  }

  /** Nothing new is on offer. */
  predicate NoNewOffer(c: Control, c': Control) {
    && (c'.main.EnqAck? ==> c.main.EnqAck?) && (c'.main.EnqNack? ==> c.main.EnqNack?)
    && (c'.submit.EnqFail? ==> c.submit.EnqFail?) && (c'.submit.EnqEof? ==> c.submit.EnqEof?)
    && (c'.submit.EnqFinish? ==> c.submit.EnqFinish? || c.submit.EnqEof?)
    && (!c'.writer.NoWrite? ==> !c.writer.NoWrite?)
  }

  predicate SameHand(c: Control, c': Control) {
    if c.sender.SSending? then c'.sender == c.sender else !c'.sender.SSending?
  }

  lemma ShutdownOffersNothing(c: Control)
    ensures NoNewOffer(c, Shutdown(c)) && NoNewOffer(c, WakeAll(c))
    ensures SameHand(c, Shutdown(c)) && SameHand(c, WakeAll(c))
  {
  }

  lemma QuietTaken(e: State, e': State)
    requires e'.wire == e.wire && SameHand(e.ctl, e'.ctl)
    ensures Taken(e') == Taken(e)
  {
  }

  lemma EnvOffersNothing(e: State, step: EnvStep)
    requires EnvEnabled(e, step)
    ensures var e' := ApplyEnv(e, step); NoNewOffer(e.ctl, e'.ctl) && e'.wire == e.wire && SameHand(e.ctl, e'.ctl)
  {
    hide Shutdown, WakeAll;
    ShutdownOffersNothing(e.ctl);
    ShutdownOffersNothing(e.ctl.(ctxDone := true));
  }

  lemma TakeOffersNothing(e: State)
    requires BodyEnabled(e, MainTakes)
    ensures NoNewOffer(e.ctl, Take(e).ctl) && Take(e).wire == e.wire && SameHand(e.ctl, Take(e).ctl)
  {
    hide Shutdown, WakeAll;
    if e.ctl.main.AwaitTry? == e.hand.value.Try? {
      ExpectedOffersNothing(e);
    } else {
      ShutdownOffersNothing(e.ctl.(main := AwaitEnd));
    }
  }

  lemma ExpectedOffersNothing(e: State)
    requires BodyEnabled(e, MainTakes) && e.ctl.main.AwaitTry? == e.hand.value.Try?
    ensures NoNewOffer(e.ctl, Take(e).ctl) && Take(e).wire == e.wire && SameHand(e.ctl, Take(e).ctl)
  {
  }

  lemma BodyOffersNothing(e: State, step: BodyStep)
    requires BodyEnabled(e, step) && !step.Answer?
    ensures var e' := ApplyBody(e, step); NoNewOffer(e.ctl, e'.ctl) && e'.wire == e.wire && SameHand(e.ctl, e'.ctl)
  {
    hide Shutdown, WakeAll, Take;
    if step.MainTakes? {
      TakeOffersNothing(e);
    } else if step.MainGivesUp? {
      ShutdownOffersNothing(e.ctl.(main := AwaitEnd));
    }
  }

  /** The answer to a try is what is offered next. */
  lemma AnswerIsOffered(e: State, outcome: TryOutcome, units: nat)
    ensures var e' := Respond(e, outcome, units);
      e'.wire == e.wire && e'.ctl == e.ctl.(main := if outcome.Accepted? then EnqAck else EnqNack)
  {
  }

  lemma FailureOffersNothing(c: Control, who: Who)
    requires Offered(c, who).Some?
    ensures NoNewOffer(c, AfterError(c, who)) && SameHand(c, AfterError(c, who))
  {
    hide Shutdown, WakeAll;
    ShutdownOffersNothing(c.(main := MainAfterError(c.main), mainParked := false));
    ShutdownOffersNothing(c.(submit := SubmitAfterError(c.submit), submitParked := false));
  }

  lemma SendOffersNothing(e: State, ok: bool)
    requires e.ctl.sender.SSending?
    ensures NoNewOffer(e.ctl, Send(e, ok).ctl) && Taken(Send(e, ok)) == Taken(e)
    ensures e.wire <= Send(e, ok).wire
  {
    hide Shutdown, WakeAll;
    ShutdownOffersNothing(e.ctl.(sender := SExit));
  }

  lemma MeetTakesOffer(e: State, who: Who)
    requires QueueEnabled(e, Meet(who))
    ensures var e', item := ApplyQueue(e, Meet(who)), Offered(e.ctl, who).value;
      && NoNewOffer(e.ctl, e'.ctl) && e'.wire == e.wire
      && Taken(e') == if item.Msg? then Taken(e) + [item.m] else Taken(e)
  {
  }

  lemma QueueOffersNothing(e: State, step: QueueStep)
    requires QueueEnabled(e, step)
    ensures NoNewOffer(e.ctl, ApplyQueue(e, step).ctl) && e.wire <= ApplyQueue(e, step).wire
    ensures !step.Meet? ==> Taken(ApplyQueue(e, step)) == Taken(e)
  {
    match step
    case Meet(who) => MeetTakesOffer(e, who);
    case EnqueueFails(who) =>
      FailureOffersNothing(e.ctl, who);
      QuietTaken(e, ApplyQueue(e, step));
    case SenderSends(ok) => SendOffersNothing(e, ok);
    case _ => QuietTaken(e, ApplyQueue(e, step));
  }

  /** The wire only grows. */
  lemma WireGrows(e: State, step: Step)
    requires Enabled(e, step)
    ensures e.wire <= Apply(e, step).wire
  {
    hide ApplyEnv, ApplyQueue, EnvEnabled, QueueEnabled, Shutdown, Take;
    match step
    case Env(s) => EnvOffersNothing(e, s);
    case Body(Answer(outcome, units)) => AnswerIsOffered(e, outcome, units);
    case Body(s) => BodyOffersNothing(e, s);
    case Queue(s) => QueueOffersNothing(e, s);
    case Agent(s) =>
  }

  /** What a step adds to the messages taken: at most the offer that meets the sender. */
  lemma TakenGrows(e: State, step: Step)
    requires Enabled(e, step)
    ensures var t, t' := Taken(e), Taken(Apply(e, step));
      || t' == t
      || (step.Queue? && step.queue.Meet? && Offered(e.ctl, step.queue.who).value.Msg?
          && t' == t + [Offered(e.ctl, step.queue.who).value.m])
  {
    hide ApplyEnv, ApplyQueue, EnvEnabled, Shutdown, Take;
    match step
    case Env(s) => EnvOffersNothing(e, s); QuietTaken(e, Apply(e, step));
    case Body(Answer(outcome, units)) => AnswerIsOffered(e, outcome, units); QuietTaken(e, Apply(e, step));
    case Body(s) => BodyOffersNothing(e, s); QuietTaken(e, Apply(e, step));
    case Queue(Meet(who)) => MeetTakesOffer(e, who);
    case Queue(s) => QueueOffersNothing(e, s);
    case Agent(s) => QuietTaken(e, Apply(e, step));
  }

  lemma StepKeepsCaused(e: State, steps: seq<Step>, step: Step)
    requires AllCaused(e, steps) && Enabled(e, step)
    ensures AllCaused(Apply(e, step), steps + [step])
  {
    hide Caused;
    forall m: RunnerMsg
      ensures (Caused(steps, m) ==> Caused(steps + [step], m)) && (IsCause(step, m) ==> Caused(steps + [step], m))
    {
      CausedLater(steps, step, m);
    }
    TakenGrows(e, step);
    PointsMove(e, step);
    hide Apply, Taken, Enabled;
  }

  /** Where new offers come from: from their cause, or from the offer before them. */
  predicate NewOffers(c: Control, c': Control, step: Step) {
    && (c'.main.EnqAck? ==> c.main.EnqAck? || IsCause(step, Ack))
    && (c'.main.EnqNack? ==> c.main.EnqNack? || IsCause(step, Nack))
    && (c'.submit.EnqFail? ==> c.submit.EnqFail? || IsCause(step, Finished(false)))
    && (c'.submit.EnqEof? ==> c.submit.EnqEof? || (IsCause(step, EofFrame) && IsCause(step, Finished(true))))
    && (c'.submit.EnqFinish? ==> c.submit.EnqFinish? || c.submit.EnqEof?)
    && (!c'.writer.NoWrite? ==> !c.writer.NoWrite? || (IsCause(step, ResultStart) && IsCause(step, DataFrame)))
  }

  lemma NoneIsNew(c: Control, c': Control, step: Step)
    requires NoNewOffer(c, c')
    ensures NewOffers(c, c', step)
  {
  }

  lemma PointsMove(e: State, step: Step)
    requires Enabled(e, step)
    ensures NewOffers(e.ctl, Apply(e, step).ctl, step)
  {
    match step
    case Env(s) => EnvPointsMove(e, s);
    case Body(Answer(outcome, units)) => AnswerIsOffered(e, outcome, units);
    case Body(s) => BodyPointsMove(e, s);
    case Queue(s) => QueuePointsMove(e, s);
    case Agent(s) =>
  }

  lemma EnvPointsMove(e: State, s: EnvStep)
    requires EnvEnabled(e, s)
    ensures NewOffers(e.ctl, ApplyEnv(e, s).ctl, Env(s))
  {
    EnvOffersNothing(e, s);
    hide ApplyEnv;
    NoneIsNew(e.ctl, ApplyEnv(e, s).ctl, Env(s));
  }

  lemma BodyPointsMove(e: State, s: BodyStep)
    requires BodyEnabled(e, s) && !s.Answer?
    ensures NewOffers(e.ctl, ApplyBody(e, s).ctl, Body(s))
  {
    BodyOffersNothing(e, s);
    hide ApplyBody;
    NoneIsNew(e.ctl, ApplyBody(e, s).ctl, Body(s));
  }

  lemma QueuePointsMove(e: State, s: QueueStep)
    requires QueueEnabled(e, s)
    ensures NewOffers(e.ctl, ApplyQueue(e, s).ctl, Queue(s))
  {
    QueueOffersNothing(e, s);
    hide ApplyQueue;
    NoneIsNew(e.ctl, ApplyQueue(e, s).ctl, Queue(s));
  }

  lemma {:induction false} RunIsCaused(run: seq<State>, steps: seq<Step>, n: nat)
    requires IsRun(run, steps) && n < |run|
    ensures AllCaused(run[n], steps[..n])
  {
    if n > 0 {
      RunIsCaused(run, steps, n - 1);
      StepKeepsCaused(run[n - 1], steps[..n - 1], steps[n - 1]);
      assert steps[..n] == steps[..n - 1] + [steps[n - 1]];
    }
  }

  /** The load balancer reads an acknowledgement only if the call was accepted, a refusal only if it
      was not, a result only if the agent wrote one, and success or failure as `Submit` returned it. */
  lemma MessagesHaveCauses(run: seq<State>, steps: seq<Step>, n: nat, i: nat)
    requires IsRun(run, steps) && n < |run| && i < |run[n].wire|
    ensures exists j :: 0 <= j < n && IsCause(steps[j], run[n].wire[i])
  {
    RunIsCaused(run, steps, n);
    assert Taken(run[n])[i] == run[n].wire[i];
    var j :| 0 <= j < |steps[..n]| && IsCause(steps[..n][j], run[n].wire[i]);
    assert steps[j] == steps[..n][j];
  }

  // ------------------------------------------------------------------ what can be said

  /** The sentinel ends the session once whoever queues it gets through. */
  lemma SentinelEnds(e: State, who: Who) returns (steps: seq<Step>, e': State)
    requires Pumping(e.ctl) && e.ctl.sender.SPoll? && Offered(e.ctl, who) == Some(Sentinel)
    ensures Path(e, steps, e') && e'.wire == e.wire && e'.ctl.done && e'.ctl.sender.SExit?
    ensures who.Submit? ==> e'.ctl.submit.Ended?
    ensures who.Main? ==> e'.ctl.main.AwaitEnd?
    ensures e'.reserved == e.reserved && e'.submits == e.submits
  {
    var a, e1 := Ready(e, who);
    var e2 := ApplyQueue(e1, Meet(who));
    assert e2.ctl.sender == SSending(Sentinel) && !e2.ctl.done;
    hide Path;
    PathStep(e, a, e1, Meet(who));
    PathStep(e, a + [Queue(Meet(who))], e2, SenderSends(true));
    steps, e' := a + [Queue(Meet(who))] + [Queue(SenderSends(true))], ApplyQueue(e2, SenderSends(true));
  }

  /** What `enqueueCallResponse` has to report. */
  function Report(failed: bool): seq<RunnerMsg> { if failed then [Finished(false)] else [EofFrame, Finished(true)] }

  lemma ResponseArrives(e: State, failed: bool) returns (steps: seq<Step>, e': State)
    requires Pumping(e.ctl) && e.ctl.submit == if failed then EnqFail else EnqEof
    ensures Path(e, steps, e') && e'.wire == Taken(e) + Report(failed)
    ensures e'.ctl.done && e'.ctl.submit.Ended? && e'.reserved == e.reserved && e'.submits == e.submits
  {
    var a, e1 := Delivered(e, Submit);
    if !failed {
      NothingInHand(e1);
      var b, e2 := Delivered(e1, Submit);
      PathJoin(e, a, e1, b, e2);
      a, e1 := a + b, e2;
    }
    hide Path;
    var c, e3 := SentinelEnds(e1, Submit);
    PathJoin(e, a, e1, c, e3);
    steps, e' := a + c, e3;
  }

  /** However `Submit` returns in an open session with nothing being written, the load balancer can
      read exactly that, behind all that was said before, and the session ends. */
  lemma SubmitIsReported(e: State, failed: bool) returns (steps: seq<Step>, e': State)
    requires Pumping(e.ctl) && e.ctl.submit.Running? && e.ctl.writer.NoWrite?
    ensures |steps| > 0 && steps[0] == Agent(SubmitReturns(failed)) && Path(e, steps, e')
    ensures e'.wire == Taken(e) + (if failed then [Finished(false)] else [EofFrame, Finished(true)])
    ensures e'.ctl.done && e'.ctl.submit.Ended?
  {
    var step := Agent(SubmitReturns(failed));
    var e0 := Apply(e, step);
    EmptyPath(e);
    PathOn(e, [], e, step);
    assert Taken(e0) == Taken(e);
    hide Path, Taken;
    var more, e1 := ResponseArrives(e0, failed);
    PathJoin(e, [] + [step], e0, more, e1);
    steps, e' := [] + [step] + more, e1;
    assert steps[0] == step;
  }

  /** What the agent writes gets through: the result is started once, and each write is one frame. */
  lemma WriteIsSent(e: State) returns (steps: seq<Step>, e': State)
    requires Pumping(e.ctl) && e.ctl.submit.Running? && e.ctl.writer.NoWrite?
    ensures |steps| > 0 && steps[0] == Agent(AgentWrites) && Path(e, steps, e')
    ensures e'.wire == Taken(e) + (if e.headerOnce then [DataFrame] else [ResultStart, DataFrame])
    ensures Pumping(e'.ctl) && e'.ctl.submit.Running? && e'.ctl.writer.NoWrite? && e'.headerOnce
  {
    var step := Agent(AgentWrites);
    var e0 := Apply(e, step);
    EmptyPath(e);
    PathOn(e, [], e, step);
    assert Taken(e0) == Taken(e);
    var a, e1 := Delivered(e0, Writer);
    PathJoin(e, [] + [step], e0, a, e1);
    a := [] + [step] + a;
    if !e.headerOnce {
      NothingInHand(e1);
      var b, e2 := Delivered(e1, Writer);
      PathJoin(e, a, e1, b, e2);
      a, e1 := a + b, e2;
    }
    steps, e' := a, e1;
    assert steps[0] == step;
  }

  lemma AcknowledgementArrives(e: State) returns (steps: seq<Step>, e': State)
    requires Pumping(e.ctl) && e.ctl.main.EnqAck?
    ensures Path(e, steps, e') && e'.wire == Taken(e) + [Ack] && e'.ctl.main.AwaitData? && Pumping(e'.ctl)
  {
    hide Path, Taken, Pumping;
    steps, e' := Delivered(e, Main);
  }

  lemma RefusalArrives(e: State) returns (steps: seq<Step>, e': State)
    requires Pumping(e.ctl) && e.ctl.main.EnqNack?
    ensures Path(e, steps, e') && e'.wire == Taken(e) + [Nack] && e'.ctl.main.AwaitEnd? && e'.ctl.done
  {
    hide Path, Taken, Pumping;
    var a, e1 := Delivered(e, Main);
    var b, e2 := SentinelEnds(e1, Main);
    PathJoin(e, a, e1, b, e2);
    steps, e' := a + b, e2;
  }

  lemma AnswerQueued(e: State, outcome: TryOutcome, units: nat)
    requires Pumping(e.ctl) && e.ctl.main.HandleTry?
    ensures var e0 := Apply(e, Body(Answer(outcome, units)));
      && Path(e, [Body(Answer(outcome, units))], e0) && Pumping(e0.ctl) && Taken(e0) == Taken(e)
      && e0.ctl.main == if outcome.Accepted? then EnqAck else EnqNack
  {
    EmptyPath(e);
    PathOn(e, [], e, Body(Answer(outcome, units)));
    assert [] + [Body(Answer(outcome, units))] == [Body(Answer(outcome, units))];
  }

  /** The answer to a try gets through: an accepted call then waits for data, a refusal ends the session. */
  lemma AnswerArrives(e: State, outcome: TryOutcome, units: nat) returns (steps: seq<Step>, e': State)
    requires Pumping(e.ctl) && e.ctl.main.HandleTry?
    ensures |steps| > 0 && steps[0] == Body(Answer(outcome, units)) && Path(e, steps, e')
    ensures e'.wire == Taken(e) + [if outcome.Accepted? then Ack else Nack]
    ensures if outcome.Accepted? then e'.ctl.main.AwaitData? && Pumping(e'.ctl)
            else e'.ctl.main.AwaitEnd? && e'.ctl.done
  {
    AnswerQueued(e, outcome, units);
    var e0 := Apply(e, Body(Answer(outcome, units)));
    hide Path, Taken, Pumping, Apply, Enabled;
    if outcome.Accepted? {
      steps, e' := AcknowledgementArrives(e0);
    } else {
      steps, e' := RefusalArrives(e0);
    }
    PathJoin(e, [Body(Answer(outcome, units))], e0, steps, e');
    steps := [Body(Answer(outcome, units))] + steps;
  }
}
